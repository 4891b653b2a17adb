# STUN client: connection reuse, response table and response dispatch

This project models the sequential decision logic of `AbstractStunClient`. That is the abstract base of a STUN client (STUN Binding, RFC 5389) used in NAT traversal to learn a host's server-reflexive address. The logic has five parts:

- **Connection reuse.** The client keeps its current transport session. A connect to the remote address that session already talks to returns that session unchanged. Any other connect asks the connector for a new session, and the new session becomes current.
- **Response table.** The transport's success and failure callbacks both store the response under the request's transaction identifier. They overwrite any earlier entry for that identifier and return null.
- **Wait decision.** A caller suspends itself only when its wait budget is non-zero and no response for its transaction is in the table.
- **Response dispatch.** A Binding success response yields its mapped address. A Binding error response yields no address (Java's `null`).
- **Fixed state.** The server endpoint is the configured server address on port 3478. The host address is the local end of the session the constructor opens, and it never changes afterwards.

Files:

- `stun_types.dfy` (module `StunTypes`): addresses, transaction identifiers, the message kinds and `VisitResult`.
- `connection_reuse.dfy` (module `ConnectionReuse`): the reuse rule on values. `ConnectorCalls` counts the connector calls a run of connects makes. Lemmas prove that the same server repeated costs one call, that changing servers costs one call each time, and that runs compose.
- `response_table.dfy` (module `ResponseTable`): the table as a `map`. `Put` is one callback's update and `DeliverAll` a run of deliveries. Lemmas prove how lookups behave after a run (correlation, no lost wakeup).
- `stun_client.dfy` (module `StunClient`): the classes `IoSession`, `Connector` and `AbstractStunClient`.
  - `Connect` and `NotifyWaiters` update fields in place. Field-level `modifies` frames show that nothing else changes.
  - The ghost counter `Connector.invocations` counts connector calls.
  - The wait decision, the dispatch and the two accessors are functions.

Three facts about the code shape the model:

- A second response for the same transaction overwrites the first (`put`, line 254).
- No timeout outcome is recorded anywhere, and an error response yields no address (`null`, line 202), not an error code and reason.
- Table entries are never removed.

## Model

| member | source | states |
|---|---|---|
| `StunClient.AbstractStunClient.Connect` | src/main/java/org/lastbamboo/common/stun/client/AbstractStunClient.java:161-179 | If the current session's remote address equals the target, that same session is returned and the connector is not called. Otherwise exactly one connector call is made and the fresh session, whose local end is wherever the transport bound the requested local address, becomes current. In both cases the current session's remote address is the target afterwards, the call costs `ConnectorCalls(old remote, [target])`, and no other field changes. |
| `StunClient.Connector.Connect` | src/main/java/org/lastbamboo/common/stun/client/AbstractStunClient.java:171-176 | The transport connect: one more invocation, and a fresh session whose remote end is the target and whose local end is the address the transport actually bound for the requested local address (`bind`). |
| `StunClient.Connector.constructor` | src/main/java/org/lastbamboo/common/stun/client/AbstractStunClient.java:133 | The connector is created with a connect timeout of 10 * 1000 ms and has not been invoked yet. |
| `StunClient.AbstractStunClient.constructor` | src/main/java/org/lastbamboo/common/stun/client/AbstractStunClient.java:109-145 | The server endpoint is the configured address on port 3478. The constructor connects once, and the resulting fresh session is current and talks to that endpoint. The host address is that session's local end, the address the transport bound for the requested local address (line 144 reads it back from the session). The response table starts empty. |
| `StunClient.AbstractStunClient.GetServerReflexiveAddress` | src/main/java/org/lastbamboo/common/stun/client/AbstractStunClient.java:183-207 | For the message `write` returned: a success response yields its mapped address and an error response yields no address. The client's visitor produces a value exactly for these two kinds. An address is produced only from a success response that carries it. |
| `StunClient.AbstractStunClient.GetHostAddress` | src/main/java/org/lastbamboo/common/stun/client/AbstractStunClient.java:209-212 | Returns the local address of the session opened by the constructor. |
| `StunClient.AbstractStunClient.GetStunServerAddress` | src/main/java/org/lastbamboo/common/stun/client/AbstractStunClient.java:214-217 | Returns the configured server address, which together with port 3478 gives back the whole server endpoint. |
| `StunClient.AbstractStunClient.WaitIfNoResponse` | src/main/java/org/lastbamboo/common/stun/client/AbstractStunClient.java:219-236 | The decision is `ResponseTable.ShouldWait` on the current table: wait if and only if `waitTime != 0` and the request's transaction id is absent. So `NoLostWakeup` applies to it directly. Being a function, it cannot change the table. |
| `StunClient.AbstractStunClient.NotifyWaiters` | src/main/java/org/lastbamboo/common/stun/client/AbstractStunClient.java:250-258 | The new table is `Put(old table, request, response)`, and the method returns null. No other field changes. |
| `StunClient.AbstractStunClient.OnTransactionFailed` | src/main/java/org/lastbamboo/common/stun/client/AbstractStunClient.java:238-242 | Same new table and same null result as `NotifyWaiters`. |
| `StunClient.AbstractStunClient.OnTransactionSucceeded` | src/main/java/org/lastbamboo/common/stun/client/AbstractStunClient.java:244-248 | Same new table and same null result as `NotifyWaiters`, and therefore the same as `OnTransactionFailed`. |
| `ResponseTable.Put` | src/main/java/org/lastbamboo/common/stun/client/AbstractStunClient.java:254 | The request's transaction id maps to the response, whatever it held before. The key set grows by exactly that id. Every other entry is unchanged. |
| `ResponseTable.SecondResponseOverwrites` | src/main/java/org/lastbamboo/common/stun/client/AbstractStunClient.java:254 | Recording two responses for one transaction leaves the second: the table is the same as if only the second had been recorded. |
| `ResponseTable.LastResponseForFound` | src/main/java/org/lastbamboo/common/stun/client/AbstractStunClient.java:250-258 | The last delivery for an id exists exactly when some delivery answers that id. |
| `ResponseTable.DeliverAllLookup` | src/main/java/org/lastbamboo/common/stun/client/AbstractStunClient.java:250-258 | After any run of deliveries, an id is present exactly when it was present before or some delivery answered it. Its entry is the response of the last delivery for it. If no delivery answered it, its earlier entry is kept. |
| `ResponseTable.OtherDeliveriesDoNotAnswer` | src/main/java/org/lastbamboo/common/stun/client/AbstractStunClient.java:250-258 | Deliveries for other transactions never add, change or answer the entry of a given id. |
| `ResponseTable.NoLostWakeup` | src/main/java/org/lastbamboo/common/stun/client/AbstractStunClient.java:223-224 | After any run of deliveries, a caller waits if and only if its budget is non-zero, its id was not in the table before, and no delivery answered it. So a response delivered before the check always prevents the wait. |
| `ConnectionReuse.ConnectorCallsBounds` | src/main/java/org/lastbamboo/common/stun/client/AbstractStunClient.java:166-178 | A run of n connects calls the connector at most n times, and at least once when its first target is not the current remote. |
| `ConnectionReuse.ConnectorCallsAppend` | src/main/java/org/lastbamboo/common/stun/client/AbstractStunClient.java:161-179 | The cost of two consecutive runs is the first run's cost plus the second's, counted from the remote the first run left current. |
| `ConnectionReuse.RepeatedTargetConnectsOnce` | src/main/java/org/lastbamboo/common/stun/client/AbstractStunClient.java:164-170 | Any non-empty run of connects to one server calls the connector exactly once, or never when the current session already talks to that server. |
| `ConnectionReuse.ChangingTargetsConnectEachTime` | src/main/java/org/lastbamboo/common/stun/client/AbstractStunClient.java:171-178 | If each target differs from the one before it (the first from the current remote), every connect calls the connector. |
| `ConnectionReuse.TwoConnects` | src/main/java/org/lastbamboo/common/stun/client/AbstractStunClient.java:161-179 | Of two consecutive connects, the second is free for the same server and costs one connector call for a different server. |

## Left out

- The MINA plumbing is not modelled. This covers the factory hook `createConnector`, the filter chain, the STUN codec filter and the `StunIoHandler`. A connector is a class that hands out sessions carrying a remote and a local address.
- Connect failures are not modelled: the connector's `ConnectFuture` failing or timing out on `getSession`. `Connector.Connect` always succeeds.
- The local address a session is bound to is the transport's choice. An ephemeral port or a wildcard address is replaced by the one the operating system assigns. The model takes it as the connector's function `bind` from the requested local address (or none) to the bound one, a constructor parameter. It does not capture that two connects with the same request may be bound to different ephemeral ports.
- The DNS lookup in `createInetAddress` and the default constructors that use it are not modelled. They do I/O, and a failed lookup ends construction with `IllegalArgumentException`. The model's constructor takes a resolved server address.
- The default transaction tracker and the default message-visitor factory are not modelled. Each is chosen when its own argument is null: the tracker at lines 114-121, the visitor factory at lines 124-132 and are external collaborators.
- The actual blocking is not modelled: `request.wait(waitTime)`, the `synchronized` block, `notify`, and the handling of `InterruptedException`. They concern interplay between threads. Only the wait/return decision is modelled.
- `WaitIfNoResponse`: a negative `waitTime` passes the decision but makes `Object.wait` throw `IllegalArgumentException`. That throw belongs to the wait, which is not modelled.
- `write(...)` is not defined in this class. Its returned message is the parameter of `GetServerReflexiveAddress`. Nothing is claimed about `write`, including a null result on timeout, for which the Java would dereference null.
- `GetServerReflexiveAddress`: the new `BindingRequest` and its random transaction id only matter as arguments to `write`, so they are not modelled.
- `GetServerReflexiveAddress`: for message kinds other than success and error, the value comes from the default behaviour of `StunMessageVisitorAdapter`, which is not part of this model. Such messages give `AdapterDefault`, and nothing is claimed about the value behind it.
- The error response's warning log, and all other logging, are not modelled.
- NotifyWaiters, OnTransactionFailed, OnTransactionSucceeded and WaitIfNoResponse: messages and transaction ids are never null in the model. In the code, `ConcurrentHashMap.put` (line 254) throws `NullPointerException` for a null id or a null response, which happens inside `synchronized` before `notify`. `containsKey` (line 224) throws the same way for a null id. So a failure callback with no response throws instead of recording anything, and that path is not modelled.
- Concurrency is not modelled. The table is a `ConcurrentHashMap` and callbacks arrive on the transport's thread. The model treats every operation as one atomic sequential step.

/**
 * The client's connection-reuse rule, seen on values. The client keeps one
 * current session; for a connect it only needs that session's remote address
 * (`None` when there is no session yet). A connect to the address the current
 * session already talks to is answered from the cache; any other target costs
 * one call of the connector and becomes the new current remote.
 */
module ConnectionReuse {
  import opened StunTypes

  /** The current session can be handed back for `target` without connecting. */
  predicate Reuses(current: Option<SocketAddress>, target: SocketAddress) {
    current == Some(target)
  }

  /** The connector calls a run of connects to `targets`, in order, makes. */
  function ConnectorCalls(current: Option<SocketAddress>, targets: seq<SocketAddress>): nat
    decreases |targets|
  {
    if targets == [] then 0
    else (if Reuses(current, targets[0]) then 0 else 1) + ConnectorCalls(Some(targets[0]), targets[1..])
  }

  /** The current remote once a run of connects to `targets` has returned. */
  function RemoteAfter(current: Option<SocketAddress>, targets: seq<SocketAddress>): Option<SocketAddress> {
    if targets == [] then current else Some(targets[|targets| - 1])
  }

  /** Each connect calls the connector at most once, and the first call to a new target always does. */
  lemma {:induction false} ConnectorCallsBounds(current: Option<SocketAddress>, targets: seq<SocketAddress>)
    ensures ConnectorCalls(current, targets) <= |targets|
    ensures targets != [] && !Reuses(current, targets[0]) ==> ConnectorCalls(current, targets) >= 1
    decreases |targets|
  {
    if targets != [] {
      ConnectorCallsBounds(Some(targets[0]), targets[1..]);
    }
  }

  /** Two runs of connects, one after the other, cost what each costs from where the first one left the cache. */
  lemma {:induction false} ConnectorCallsAppend(current: Option<SocketAddress>, first: seq<SocketAddress>, second: seq<SocketAddress>)
    ensures ConnectorCalls(current, first + second)
         == ConnectorCalls(current, first) + ConnectorCalls(RemoteAfter(current, first), second)
    decreases |first|
  {
    if first != [] {
      assert (first + second)[0] == first[0];
      assert (first + second)[1..] == first[1..] + second;
      ConnectorCallsAppend(Some(first[0]), first[1..], second);
      if first[1..] == [] {
        assert RemoteAfter(Some(first[0]), first[1..]) == Some(first[0]) == RemoteAfter(current, first);
      } else {
        assert RemoteAfter(Some(first[0]), first[1..]) == RemoteAfter(current, first);
      }
    } else {
      assert first + second == second;
    }
  }

  /**
   * Any number of connects to one server call the connector once, and not at
   * all when the current session already talks to that server.
   */
  lemma {:induction false} RepeatedTargetConnectsOnce(current: Option<SocketAddress>, target: SocketAddress, targets: seq<SocketAddress>)
    requires targets != []
    requires forall i :: 0 <= i < |targets| ==> targets[i] == target
    ensures ConnectorCalls(current, targets) == if Reuses(current, target) then 0 else 1
    decreases |targets|
  {
    if |targets| > 1 {
      RepeatedTargetConnectsOnce(Some(target), target, targets[1..]);
    } else {
      assert targets[1..] == [];
    }
  }

  /**
   * When every connect names a server other than the one before it, every
   * connect calls the connector.
   */
  lemma {:induction false} ChangingTargetsConnectEachTime(current: Option<SocketAddress>, targets: seq<SocketAddress>)
    requires targets != [] ==> !Reuses(current, targets[0])
    requires forall i :: 0 < i < |targets| ==> targets[i] != targets[i - 1]
    ensures ConnectorCalls(current, targets) == |targets|
    decreases |targets|
  {
    if targets != [] {
      var rest := targets[1..];
      forall i | 0 < i < |rest| ensures rest[i] != rest[i - 1] {
        assert rest[i] == targets[i + 1] && rest[i - 1] == targets[i];
      }
      if rest != [] {
        assert rest[0] == targets[1];
      }
      ChangingTargetsConnectEachTime(Some(targets[0]), rest);
    }
  }

  /**
   * Two consecutive connects: the second one is free when it names the same
   * server as the first and costs one connector call when it names another.
   */
  lemma TwoConnects(current: Option<SocketAddress>, a: SocketAddress, b: SocketAddress)
    ensures ConnectorCalls(current, [a, b])
         == (if Reuses(current, a) then 0 else 1) + (if a == b then 0 else 1)
  {
    assert [a, b][1..] == [b];
    assert ConnectorCalls(Some(a), [b]) == if a == b then 0 else 1 by {
      assert [b][1..] == [];
    }
  }
}

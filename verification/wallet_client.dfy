/** The slice of the wallet client that keeps the node-connection status,
    calculates change, replaces the node address, and counts reconnection
    attempts in its node network.

    Notifications the client raises towards its observers (`onWalletError`,
    `onNodeConnectionChanged`, `onChangeCalculated`) are appended, in order,
    to the client's `notices`. Address resolution and coin selection are
    inputs: their results are parameters of the operations that use them. */
module WalletClientModel {
  import opened WalletTypes

  /** `ErrorType`, the wallet error shown to the user. Only the
      host-resolution error is named by the code modelled here. */
  datatype ErrorType = HostResolvedError | OtherError(code: nat)

  /** `io::ErrorCode`. Only the host-resolution error is named. */
  datatype IoError = HostResolveFailed | OtherIoError(code: nat)

  /** `proto::NodeConnection::DisconnectReason`, by the type of failure. */
  datatype DisconnectReason =
    | Io(ioError: IoError)
    | ProcessingExc(exceptionType: nat)
    | OtherReason(kind: nat)

  /** `io::Address`: a resolved node endpoint. */
  datatype Address = Address(ip: nat, port: nat)

  /** A notification to the client's observers. */
  datatype Notice =
    | WalletError(error: ErrorType)
    | NodeConnectionChanged(connected: bool)
    | ChangeCalculated(change: Amount)

  /** `MAX_ATTEMPT_TO_CONNECT`. */
  const MaxAttemptToConnect: U8 := 5

  // ---------------------------------------------------------------------
  // Specification functions
  // ---------------------------------------------------------------------

  /** The change reported for selected coins worth `total` (the wrapped
      64-bit sum) against `amount`: the difference when it is not negative,
      otherwise zero. */
  function ChangeFor(total: Amount, amount: Amount): (r: Amount)
    ensures r <= total
    ensures total >= amount <==> r + amount == total
    ensures total < amount ==> r == 0
  {
    if total < amount then 0 else total - amount
  }

  /** What `getNetworkStatus` reports: the recorded error while disconnected,
      otherwise the connection flag. */
  function StatusNotice(walletError: Option<ErrorType>, isConnected: bool): (n: Notice)
    ensures n.WalletError? <==> walletError.Some? && !isConnected
    ensures n.WalletError? ==> n.error == walletError.value
    ensures !n.WalletError? ==> n == NodeConnectionChanged(isConnected)
  {
    if walletError.Some? && !isConnected then WalletError(walletError.value) else NodeConnectionChanged(isConnected)
  }

  /** One call of `tryToConnect` on the attempt counter, while the node list is empty. */
  function AttemptStep(n: U8): U8
  {
    if n < MaxAttemptToConnect then n + 1 else n
  }

  /** The attempt counter after `k` calls of `tryToConnect`, starting from zero. */
  function AttemptsAfter(k: nat): U8
  {
    if k == 0 then 0 else AttemptStep(AttemptsAfter(k - 1))
  }

  /** The counter climbs one per call up to the maximum and then stays there. */
  lemma {:induction false} AttemptsAfterIs(k: nat)
    ensures AttemptsAfter(k) == if k < MaxAttemptToConnect then k else MaxAttemptToConnect
  {
    if k > 0 {
      AttemptsAfterIs(k - 1);
    }
  }

  /** The (k+1)-th call of `tryToConnect` reports a connection failure exactly
      when at least `MAX_ATTEMPT_TO_CONNECT` calls came before it. */
  lemma FailureReportedFromAttempt(k: nat)
    ensures AttemptsAfter(k) == MaxAttemptToConnect <==> k >= MaxAttemptToConnect
  {
    AttemptsAfterIs(k);
  }

  /** The selected coins' values totalled in a 64-bit accumulator, as the
      loop of `calcChange` does. */
  method SumSelected(values: seq<Amount>) returns (sum: Amount)
    ensures sum == AccumulateU64(values)
    ensures Sum(values) < U64Limit ==> sum == Sum(values)
  {
    sum := 0;
    var i := 0;
    while i < |values|
      invariant 0 <= i <= |values|
      invariant sum == AccumulateU64(values[..i])
    {
      AccumulateAppend(values[..i], values[i]);
      assert values[..i + 1] == values[..i] + [values[i]];
      sum := (sum + values[i]) % U64Limit;
      i := i + 1;
    }
    assert values[..i] == values;
    AccumulateIsSumMod(values);
  }

  // ---------------------------------------------------------------------
  // The client
  // ---------------------------------------------------------------------

  class WalletClient {
    var isConnected: bool
    var walletError: Option<ErrorType>
    var nodeAddrStr: string
    /** The node network the client started (`m_nodeNetwork`); null when expired. */
    var nodeNetwork: NodeNetwork?
    /** Notifications raised so far, oldest first. */
    var notices: seq<Notice>

    /** `getWalletError` for an I/O error and for a node exception type. */
    const errorOfIo: IoError -> ErrorType
    const errorOfException: nat -> ErrorType

    constructor (nodeAddr: string, errorOfIo: IoError -> ErrorType, errorOfException: nat -> ErrorType)
      ensures !isConnected && walletError.None? && nodeAddrStr == nodeAddr
      ensures nodeNetwork == null && notices == []
      ensures this.errorOfIo == errorOfIo && this.errorOfException == errorOfException
    {
      isConnected := false;
      walletError := None;
      nodeAddrStr := nodeAddr;
      nodeNetwork := null;
      notices := [];
      this.errorOfIo := errorOfIo;
      this.errorOfException := errorOfException;
    }

    /** The error a disconnect reason maps to: an I/O failure or a processing
        exception is mapped by `getWalletError`; any other reason has none. */
    function ErrorOf(reason: DisconnectReason): (r: Option<ErrorType>)
      ensures r.Some? <==> reason.Io? || reason.ProcessingExc?
      ensures reason.Io? ==> r == Some(errorOfIo(reason.ioError))
      ensures reason.ProcessingExc? ==> r == Some(errorOfException(reason.exceptionType))
    {
      match reason
      case ProcessingExc(t) => Some(errorOfException(t))
      case Io(e) => Some(errorOfIo(e))
      case OtherReason(_) => None
    }

    /** `start` keeps the node network it creates. */
    method AttachNodeNetwork(n: NodeNetwork)
      modifies this`nodeNetwork
      ensures nodeNetwork == n
    {
      nodeNetwork := n;
    }

    /** `calcChange`: the total of the coins the wallet database selects for
        `amount` (`selected`, their values) less `amount`, or zero when they
        fall short. */
    method CalcChange(selected: seq<Amount>, amount: Amount)
      modifies this`notices
      ensures notices == old(notices) + [ChangeCalculated(ChangeFor(AccumulateU64(selected), amount))]
    {
      var sum := SumSelected(selected);
      if sum < amount {
        notices := notices + [ChangeCalculated(0)];
      } else {
        notices := notices + [ChangeCalculated(sum - amount)];
      }
    }

    /** `nodeConnectionFailed`: always disconnected; an I/O or processing
        failure is recorded and reported, any other reason is not. */
    method NodeConnectionFailed(reason: DisconnectReason)
      modifies this`isConnected, this`walletError, this`notices
      ensures !isConnected
      ensures ErrorOf(reason).Some? ==>
        walletError == ErrorOf(reason) && notices == old(notices) + [WalletError(ErrorOf(reason).value)]
      ensures ErrorOf(reason).None? ==> walletError == old(walletError) && notices == old(notices)
    {
      isConnected := false;
      if reason.ProcessingExc? {
        walletError := Some(errorOfException(reason.exceptionType));
        notices := notices + [WalletError(walletError.value)];
        return;
      }
      if reason.Io? {
        walletError := Some(errorOfIo(reason.ioError));
        notices := notices + [WalletError(walletError.value)];
        return;
      }
    }

    /** `nodeConnectedStatusChanged`: stores and reports the new flag. */
    method NodeConnectedStatusChanged(isNodeConnected: bool)
      modifies this`isConnected, this`notices
      ensures isConnected == isNodeConnected
      ensures notices == old(notices) + [NodeConnectionChanged(isNodeConnected)]
    {
      isConnected := isNodeConnected;
      notices := notices + [NodeConnectionChanged(isNodeConnected)];
    }

    /** `getNetworkStatus`: reports the current status without changing it. */
    method GetNetworkStatus()
      modifies this`notices
      ensures notices == old(notices) + [StatusNotice(walletError, isConnected)]
    {
      if walletError.Some? && !isConnected {
        notices := notices + [WalletError(walletError.value)];
        return;
      }
      notices := notices + [NodeConnectionChanged(isConnected)];
    }

    /** `setNodeAddress`: `resolved` is the result of resolving `addr`. On
        success the address is kept and the node list becomes exactly that
        one node; otherwise a host-resolution error is reported and nothing
        else changes. */
    method SetNodeAddress(addr: string, resolved: Option<Address>)
      modifies this`nodeAddrStr, this`notices, nodeNetwork
      ensures resolved.Some? ==> nodeAddrStr == addr && notices == old(notices)
      ensures resolved.Some? && nodeNetwork != null ==>
        nodeNetwork.nodes == [resolved.value] && nodeNetwork.attemptToConnect == old(nodeNetwork.attemptToConnect)
      ensures resolved.None? ==> nodeAddrStr == old(nodeAddrStr) && notices == old(notices) + [WalletError(HostResolvedError)]
      ensures resolved.None? && nodeNetwork != null ==> nodeNetwork.nodes == old(nodeNetwork.nodes)
      ensures nodeNetwork != null ==> nodeNetwork.reconnectPending == old(nodeNetwork.reconnectPending)
      ensures nodeNetwork != null ==> nodeNetwork.attemptToConnect == old(nodeNetwork.attemptToConnect)
    {
      if resolved.Some? {
        nodeAddrStr := addr;
        var s := nodeNetwork;
        if s != null {
          s.nodes := [];
          s.nodes := s.nodes + [resolved.value];
        }
      } else {
        notices := notices + [WalletError(HostResolvedError)];
      }
    }
  }

  // ---------------------------------------------------------------------
  // The node network
  // ---------------------------------------------------------------------

  /** The `NodeNetwork` of `WalletClient::start`: a node list, the address it
      was created with, and the count of connection attempts. */
  class NodeNetwork {
    /** `m_Cfg.m_vNodes`. */
    var nodes: seq<Address>
    var attemptToConnect: U8
    /** Whether the reconnection timer is armed. */
    var reconnectPending: bool
    const nodeAddrStr: string
    const client: WalletClient

    constructor (client: WalletClient, nodeAddress: string)
      ensures nodes == [] && attemptToConnect == 0 && !reconnectPending
      ensures this.client == client && nodeAddrStr == nodeAddress
    {
      nodes := [];
      attemptToConnect := 0;
      reconnectPending := false;
      this.client := client;
      nodeAddrStr := nodeAddress;
    }

    /** The counter never passes the maximum number of attempts. */
    predicate Valid()
      reads this`attemptToConnect
    {
      attemptToConnect <= MaxAttemptToConnect
    }

    /** `tryToConnect`: with nodes configured, nothing. Otherwise the counter
        advances while below the maximum; at the maximum a host-resolution
        failure is passed to the client; the reconnection timer is armed. */
    method TryToConnect()
      modifies this`attemptToConnect, this`reconnectPending, client`isConnected, client`walletError, client`notices
      ensures nodes != [] ==>
        && attemptToConnect == old(attemptToConnect) && reconnectPending == old(reconnectPending)
        && client.isConnected == old(client.isConnected) && client.walletError == old(client.walletError)
        && client.notices == old(client.notices)
      ensures nodes == [] ==> attemptToConnect == AttemptStep(old(attemptToConnect)) && reconnectPending
      ensures nodes == [] && old(attemptToConnect) == MaxAttemptToConnect ==>
        var e := client.errorOfIo(HostResolveFailed);
        && !client.isConnected && client.walletError == Some(e)
        && client.notices == old(client.notices) + [WalletError(e)]
      ensures old(attemptToConnect) != MaxAttemptToConnect ==>
        && client.isConnected == old(client.isConnected) && client.walletError == old(client.walletError)
        && client.notices == old(client.notices)
      ensures old(Valid()) ==> Valid()
    {
      if |nodes| > 0 {
        return;
      }
      if attemptToConnect < MaxAttemptToConnect {
        attemptToConnect := attemptToConnect + 1;
      } else if attemptToConnect == MaxAttemptToConnect {
        client.NodeConnectionFailed(Io(HostResolveFailed));
      }
      reconnectPending := true;
    }

    /** The reconnection timer fires with `resolved`, the result of resolving
        the network's own address: a resolved node is added (and a
        connection opened), otherwise another attempt is made. */
    method OnReconnectTimer(resolved: Option<Address>)
      requires reconnectPending
      modifies this`nodes, this`attemptToConnect, this`reconnectPending, client`isConnected, client`walletError, client`notices
      ensures resolved.Some? ==> nodes == old(nodes) + [resolved.value] && attemptToConnect == old(attemptToConnect)
      ensures resolved.Some? ==> client.notices == old(client.notices) && !reconnectPending
      ensures resolved.None? ==> nodes == old(nodes)
      ensures resolved.None? && nodes == [] ==> attemptToConnect == AttemptStep(old(attemptToConnect)) && reconnectPending
      ensures resolved.None? && nodes != [] ==> attemptToConnect == old(attemptToConnect) && !reconnectPending
      ensures resolved.None? && nodes == [] && old(attemptToConnect) == MaxAttemptToConnect ==>
        var e := client.errorOfIo(HostResolveFailed);
        && !client.isConnected && client.walletError == Some(e)
        && client.notices == old(client.notices) + [WalletError(e)]
      ensures resolved.Some? || nodes != [] || old(attemptToConnect) != MaxAttemptToConnect ==>
        && client.isConnected == old(client.isConnected) && client.walletError == old(client.walletError)
        && client.notices == old(client.notices)
      ensures old(Valid()) ==> Valid()
    {
      reconnectPending := false;
      if resolved.Some? {
        nodes := nodes + [resolved.value];
      } else {
        TryToConnect();
      }
    }

    /** `OnNodeConnected`: forwards the new status to the client. */
    method OnNodeConnected(connected: bool)
      modifies client`isConnected, client`notices
      ensures client.isConnected == connected
      ensures client.notices == old(client.notices) + [NodeConnectionChanged(connected)]
    {
      client.NodeConnectedStatusChanged(connected);
    }

    /** `OnConnectionFailed`: forwards the reason to the client. */
    method OnConnectionFailed(reason: DisconnectReason)
      modifies client`isConnected, client`walletError, client`notices
      ensures !client.isConnected
      ensures client.ErrorOf(reason).Some? ==>
        client.walletError == client.ErrorOf(reason)
        && client.notices == old(client.notices) + [WalletError(client.ErrorOf(reason).value)]
      ensures client.ErrorOf(reason).None? ==>
        client.walletError == old(client.walletError) && client.notices == old(client.notices)
    {
      client.NodeConnectionFailed(reason);
    }
  }
}

/**
 * Values the STUN client works with: addresses, transaction identifiers and
 * the decoded STUN messages it receives from the transport. The wire format
 * itself belongs to the codec and is not part of this model; a message is
 * seen only through its kind, its transaction identifier and, for a Binding
 * success response, its mapped address.
 */
module StunTypes {

  datatype Option<+T> = None | Some(value: T)

  /** A Java `long`. */
  newtype int64 = x: int | -0x8000_0000_0000_0000 <= x < 0x8000_0000_0000_0000

  /** A TCP/UDP port; `InetSocketAddress` refuses anything outside this range. */
  type Port = p: int | 0 <= p <= 0xFFFF

  /** An IP address (`InetAddress`), kept opaque: 4 octets for IPv4, 16 for IPv6. */
  datatype InetAddress = InetAddress(octets: seq<bv8>)

  /**
   * An IP address and a port (`InetSocketAddress`). Datatype equality is the
   * address-and-port comparison that `InetSocketAddress.equals` performs on
   * resolved addresses.
   */
  datatype SocketAddress = SocketAddress(address: InetAddress, port: Port)

  /** The 128-bit transaction identifier (a UUID) every STUN message carries. */
  datatype TransactionId = TransactionId(uuid: bv128)

  /**
   * The decoded message kinds the client meets. A Binding request is what the
   * client sends; the two responses are what the server may answer with.
   */
  datatype StunMessage =
    | BindingRequest(transactionId: TransactionId)
    | BindingSuccessResponse(transactionId: TransactionId, mappedAddress: SocketAddress)
    | BindingErrorResponse(transactionId: TransactionId)

  /**
   * The value a message visitor produces for a message. `Visited` is a value
   * the client's own visitor computes (`None` stands for Java's `null`);
   * `AdapterDefault` marks a message kind the client's visitor does not
   * override, whose value comes from the library's visitor adapter and is not
   * interpreted here.
   */
  datatype VisitResult = Visited(address: Option<SocketAddress>) | AdapterDefault
}

/** Values that the MultiversX host hands to the contract or takes from it:
    caller addresses, token identifiers, the attached payment of a payable
    call, outgoing transfers and logged events. */
module Host {

  /** A `ManagedAddress`: the raw bytes of an account address. */
  datatype Address = Address(bytes: seq<bv8>)

  /** An `EgldOrEsdtTokenIdentifier`: the native EGLD or a fungible ESDT ticker. */
  datatype TokenId = Egld | Esdt(ticker: string)

  /** The `(token, amount)` pair attached to a payable call. */
  datatype Payment = Payment(token: TokenId, amount: nat)

  /** One `send().direct(to, token, nonce, amount)` from the contract's custody. */
  datatype Transfer = Transfer(to: Address, token: TokenId, nonce: nat, amount: nat)

  /** The two events the contract logs. */
  datatype Event = PingEvent(user: Address) | PongEvent(user: Address)

  datatype Option<T> = None | Some(value: T)

  /** A placeholder owner for the storage of a contract before `init`. */
  const ZeroAddress: Address := Address(seq(32, _ => 0 as bv8))
}

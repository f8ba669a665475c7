/** The values that the payment channel node, the watchtower and the ledger of the
    XRP arm exchange. A signature is modelled by what it signs: nobody can make
    one for a key, a channel and an amount that the owner of the key did not sign. */
module XrpTypes {
  import opened Options

  type Account = int
  type Key = int
  type ChanId = int

  datatype Sig = Sig(key: Key, channel: ChanId, amount: int)

  predicate Verifies(sig: Sig, key: Key, channel: ChanId, amount: int) {
    sig == Sig(key, channel, amount)
  }

  /** The peer message that carries a claim: a cumulative amount and a signature. */
  datatype Claim = Claim(channel: ChanId, amount: int, sig: Sig)

  datatype Rejection =
    | NoIncomingChannel | UnknownChannel | Stale | ExceedsFunding | BadSignature
    | NotOnLedger | PartiesMismatch

  datatype Reply = Ok(amount: int, version: nat) | Err(why: Rejection)

  /** The record of the incoming channel in the state file of a node. */
  datatype Incoming = Incoming(
    channel: ChanId, payerPub: Key, funded: int,
    best: int, bestSig: Option<Sig>, version: nat,
    redeemed: int, closed: bool, ticket: Option<nat>, towerDrops: int)

  /** The record of the outgoing channel in the state file of a node. */
  datatype Outgoing = Outgoing(
    channel: ChanId, funded: int, signed: int, version: nat, lastSig: Option<Sig>, closed: bool)

  /** The whole state file of a node. */
  datatype Doc = Doc(out: Option<Outgoing>, inn: Option<Incoming>)

  /** The transaction that the payee signs in advance: it redeems a claim, closes
      the channel and spends a ticket of the payee. */
  datatype Blob = Blob(channel: ChanId, amount: int, sig: Sig, pub: Key, ticket: nat)

  /** What `_redeem` puts into its transaction. */
  datatype Redeem = Redeem(channel: ChanId, amount: int, sig: Option<Sig>, pub: Key, close: bool)

  function Max(a: int, b: int): (m: int)
    ensures m >= a && m >= b && (m == a || m == b)
  {
    if a >= b then a else b
  }
}

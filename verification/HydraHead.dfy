/** Payments inside a Hydra head: which UTxO the wallet spends, what it builds, and what
    a run of confirmed payments does to the UTxO set of the head. */
module HydraHead {
  import opened Options

  type Address = int

  datatype TxIn = TxIn(txid: int, ix: nat)

  /** `pure` says that the output holds lovelace and nothing else. */
  datatype TxOut = TxOut(address: Address, lovelace: int, pure: bool)

  datatype Entry = Entry(txin: TxIn, out: TxOut)

  /** The UTxO set in the order in which the wallet iterates over it. */
  type Utxo = seq<Entry>

  function Total(u: Utxo): int {
    if u == [] then 0 else u[0].out.lovelace + Total(u[1..])
  }

  function Share(e: Entry, a: Address): int {
    if e.out.address == a then e.out.lovelace else 0
  }

  /** The lovelace of one address, as `sum_by_address` yields it. */
  function Balance(u: Utxo, a: Address): int {
    if u == [] then 0 else Share(u[0], a) + Balance(u[1..], a)
  }

  /** An input that `pick_input` may take: it pays the amount exactly, or leaves change
      that is worth an output. */
  predicate Eligible(e: Entry, me: Address, need: int, minUtxo: int) {
    && e.out.address == me && e.out.pure
    && (e.out.lovelace == need || e.out.lovelace >= need + minUtxo)
  }

  /** The input it has to take: the largest eligible one. */
  ghost predicate IsPick(u: Utxo, i: nat, me: Address, need: int, minUtxo: int) {
    && i < |u| && Eligible(u[i], me, need, minUtxo)
    && forall j | 0 <= j < |u| && Eligible(u[j], me, need, minUtxo) :: u[j].out.lovelace <= u[i].out.lovelace
  }

  /** The outputs of a payment of `amount` from an input of `value`. */
  function Outputs(value: int, me: Address, peer: Address, amount: int): seq<TxOut> {
    [TxOut(peer, amount, true)] + if value > amount then [TxOut(me, value - amount, true)] else []
  }

  function Value(outs: seq<TxOut>): int {
    if outs == [] then 0 else outs[0].lovelace + Value(outs[1..])
  }

  /** What makes an input of the wallet eligible: nothing but lovelace in it, and a
      payment from it that is balanced without a fee and has no output below the floor. */
  lemma EligibleExactly(e: Entry, me: Address, peer: Address, need: int, minUtxo: int)
    requires e.out.address == me && 0 <= minUtxo <= need
    ensures var outs := Outputs(e.out.lovelace, me, peer, need);
            Eligible(e, me, need, minUtxo) <==>
            e.out.pure && Value(outs) == e.out.lovelace && forall o | o in outs :: o.lovelace >= minUtxo
  {
    var value := e.out.lovelace;
    var outs := Outputs(value, me, peer, need);
    assert outs[0].lovelace == need;
    if value > need {
      assert outs[1].lovelace == value - need && outs[1] in outs && outs[1..][1..] == [];
      assert Value(outs[1..]) == value - need + Value(outs[1..][1..]);
    } else {
      assert outs[1..] == [];
    }
  }

  datatype Payment = Payment(input: TxIn, outputs: seq<TxOut>)

  datatype PayError = Observer | BelowFloor | NoInput

  datatype Built = Built(payment: Payment) | Refused(why: PayError)

  class Wallet {
    const addr: Option<Address>     // None for an observer, which has no funds key
    const peer: Address
    const minUtxo: int
    var utxo: Utxo

    constructor (addr: Option<Address>, peer: Address, minUtxo: int)
      ensures this.addr == addr && this.peer == peer && this.minUtxo == minUtxo && utxo == []
    {
      this.addr, this.peer, this.minUtxo := addr, peer, minUtxo;
      utxo := [];
    }

    /** `sum_by_address`, read for all addresses at once. */
    method SumByAddress() returns (sums: map<Address, int>)
      ensures forall a :: a in sums <==> exists i :: 0 <= i < |utxo| && utxo[i].out.address == a
      ensures forall a :: Balance(utxo, a) == if a in sums then sums[a] else 0
    {
      sums := map[];
      var i := 0;
      while i < |utxo|
        invariant 0 <= i <= |utxo|
        invariant forall a :: a in sums <==> exists j :: 0 <= j < i && utxo[j].out.address == a
        invariant forall a :: Balance(utxo[..i], a) == if a in sums then sums[a] else 0
      {
        var o := utxo[i].out;
        forall a ensures Balance(utxo[..i + 1], a) == Balance(utxo[..i], a) + Share(utxo[i], a) {
          assert utxo[..i + 1] == utxo[..i] + [utxo[i]];
          Appended(utxo[..i], [utxo[i]], a);
        }
        sums := sums[o.address := (if o.address in sums then sums[o.address] else 0) + o.lovelace];
        i := i + 1;
      }
      assert utxo[..|utxo|] == utxo;
    }

    /** `pick_input`: the first of the largest eligible inputs, and none exactly when
        none is eligible. */
    method PickInput(me: Address, need: int) returns (best: Option<nat>)
      ensures best.None? <==> forall i | 0 <= i < |utxo| :: !Eligible(utxo[i], me, need, minUtxo)
      ensures best.Some? ==>
                && IsPick(utxo, best.value, me, need, minUtxo)
                && forall j | 0 <= j < best.value && Eligible(utxo[j], me, need, minUtxo) ::
                     utxo[j].out.lovelace < utxo[best.value].out.lovelace
    {
      best := None;
      var i := 0;
      while i < |utxo|
        invariant 0 <= i <= |utxo|
        invariant best.None? ==> forall j | 0 <= j < i :: !Eligible(utxo[j], me, need, minUtxo)
        invariant best.Some? ==>
                    && best.value < i && Eligible(utxo[best.value], me, need, minUtxo)
                    && (forall j | 0 <= j < i && Eligible(utxo[j], me, need, minUtxo) ::
                          utxo[j].out.lovelace <= utxo[best.value].out.lovelace)
                    && (forall j | 0 <= j < best.value && Eligible(utxo[j], me, need, minUtxo) ::
                          utxo[j].out.lovelace < utxo[best.value].out.lovelace)
      {
        var o := utxo[i].out;
        if o.address == me && o.pure {
          if o.lovelace == need || o.lovelace >= need + minUtxo {
            if best.None? || o.lovelace > utxo[best.value].out.lovelace {
              best := Some(i);
            }
          }
        }
        i := i + 1;
      }
    }

    /** `cmd_pay` up to the signature. It refuses exactly for an observer, an amount
        below the floor, or if no single input covers the amount and its change. */
    method BuildPayment(amount: int) returns (r: Built)
      ensures r == Refused(Observer) <==> addr.None?
      ensures r == Refused(BelowFloor) <==> addr.Some? && amount < minUtxo
      ensures r == Refused(NoInput) <==> addr.Some? && amount >= minUtxo
                                         && forall i | 0 <= i < |utxo| ::
                                              !Eligible(utxo[i], addr.value, amount, minUtxo)
      ensures r.Built? ==>
                exists i: nat ::
                  && IsPick(utxo, i, addr.value, amount, minUtxo)
                  && r.payment == Payment(utxo[i].txin, Outputs(utxo[i].out.lovelace, addr.value, peer, amount))
    {
      if addr.None? {
        return Refused(Observer);
      }
      if amount < minUtxo {
        return Refused(BelowFloor);
      }
      var pick := PickInput(addr.value, amount);
      if pick.None? {
        return Refused(NoInput);
      }
      var value := utxo[pick.value].out.lovelace;
      var outputs := [TxOut(peer, amount, true)];
      if value > amount {
        outputs := outputs + [TxOut(addr.value, value - amount, true)];
      }
      r := Built(Payment(utxo[pick.value].txin, outputs));
    }
  }

  // ---- confirmed payments ----

  /** A payment in the head: who pays whom how much, and the id of its transaction. */
  datatype Transfer = Transfer(payer: Address, payee: Address, amount: int, txid: int)

  function NewEntries(txid: int, outputs: seq<TxOut>): (es: seq<Entry>)
    ensures |es| == |outputs|
    ensures forall i | 0 <= i < |es| :: es[i] == Entry(TxIn(txid, i), outputs[i])
  {
    seq(|outputs|, i requires 0 <= i < |outputs| => Entry(TxIn(txid, i), outputs[i]))
  }

  function Without(u: Utxo, i: nat): Utxo
    requires i < |u|
  {
    u[..i] + u[i + 1..]
  }

  /** The snapshot after a confirmed payment: the input is gone, the outputs are there,
      in whatever order the head lists them. The id of a transaction is new, and the
      head takes no payment of more than the input holds. */
  ghost predicate Confirms(u: Utxo, t: Transfer, minUtxo: int, u': Utxo, i: nat) {
    && t.amount >= minUtxo && t.payer != t.payee
    && IsPick(u, i, t.payer, t.amount, minUtxo) && t.amount <= u[i].out.lovelace
    && (forall e | e in u :: e.txin.txid != t.txid)
    && var outputs := Outputs(u[i].out.lovelace, t.payer, t.payee, t.amount);
    multiset(u') == multiset(Without(u, i) + NewEntries(t.txid, outputs))
  }

  ghost predicate Confirmed(u: Utxo, t: Transfer, minUtxo: int, u': Utxo) {
    exists i: nat :: Confirms(u, t, minUtxo, u', i)
  }

  lemma {:induction false} Appended(u: Utxo, v: Utxo, a: Address)
    ensures Balance(u + v, a) == Balance(u, a) + Balance(v, a)
    ensures Total(u + v) == Total(u) + Total(v)
    decreases |u|
  {
    if u == [] {
      assert u + v == v;
    } else {
      assert (u + v)[1..] == u[1..] + v;
      Appended(u[1..], v, a);
    }
  }

  lemma Removed(u: Utxo, i: nat, a: Address)
    requires i < |u|
    ensures Balance(Without(u, i), a) == Balance(u, a) - Share(u[i], a)
    ensures Total(Without(u, i)) == Total(u) - u[i].out.lovelace
  {
    assert u == u[..i] + ([u[i]] + u[i + 1..]);
    Appended(u[..i], [u[i]] + u[i + 1..], a);
    Appended([u[i]], u[i + 1..], a);
    Appended(u[..i], u[i + 1..], a);
  }

  lemma WithoutOne(u: Utxo, i: nat)
    requires i < |u|
    ensures multiset(Without(u, i)) == multiset(u) - multiset{u[i]}
  {
    assert u == u[..i] + [u[i]] + u[i + 1..];
  }

  lemma SameElement(u: Utxo, v: Utxo) returns (i: nat)
    requires multiset(u) == multiset(v) && u != []
    ensures i < |v| && v[i] == u[0]
  {
    assert u[0] in multiset(u);
    assert u[0] in v;
    i :| 0 <= i < |v| && v[i] == u[0];
  }

  /** The order of the UTxO set does not matter for any sum. */
  lemma {:induction false} Reordered(u: Utxo, v: Utxo, a: Address)
    requires multiset(u) == multiset(v)
    ensures |u| == |v| && Balance(u, a) == Balance(v, a) && Total(u) == Total(v)
    decreases |u|
  {
    assert |u| == |multiset(u)| && |v| == |multiset(v)|;
    if u != [] {
      var i := SameElement(u, v);
      WithoutOne(u, 0);
      WithoutOne(v, i);
      assert Without(u, 0) == u[1..];
      Reordered(u[1..], Without(v, i), a);
      Removed(v, i, a);
    }
  }

  lemma OutputsSum(txid: int, value: int, me: Address, peer: Address, amount: int, a: Address)
    requires me != peer && value >= amount
    ensures var es := NewEntries(txid, Outputs(value, me, peer, amount));
            && Total(es) == value
            && Balance(es, a) == if a == peer then amount else if a == me then value - amount else 0
  {
    var es := NewEntries(txid, Outputs(value, me, peer, amount));
    var rest := es[1..];
    assert es[0].out == TxOut(peer, amount, true);
    assert Total(es) == amount + Total(rest) && Balance(es, a) == Share(es[0], a) + Balance(rest, a);
    if value > amount {
      assert rest[0].out == TxOut(me, value - amount, true) && rest[1..] == [];
      assert Total(rest[1..]) == 0 && Balance(rest[1..], a) == 0;
    } else {
      assert rest == [];
    }
  }

  /** One confirmed payment: the amount moves, nothing else does. */
  lemma PaymentMoves(u: Utxo, t: Transfer, minUtxo: int, u': Utxo, a: Address)
    requires Confirmed(u, t, minUtxo, u')
    ensures Total(u') == Total(u)
    ensures Balance(u', a)
         == Balance(u, a) + (if a == t.payee then t.amount else if a == t.payer then -t.amount else 0)
    ensures |u'| <= |u| + 1
  {
    var i: nat :| Confirms(u, t, minUtxo, u', i);
    var value := u[i].out.lovelace;
    var es := NewEntries(t.txid, Outputs(value, t.payer, t.payee, t.amount));
    Reordered(u', Without(u, i) + es, a);
    Appended(Without(u, i), es, a);
    Removed(u, i, a);
    OutputsSum(t.txid, value, t.payer, t.payee, t.amount, a);
  }

  lemma SameMembers(u: Utxo, v: Utxo, e: Entry)
    requires multiset(u) == multiset(v)
    ensures e in u <==> e in v
  {
    assert e in multiset(u) <==> e in multiset(v);
  }

  /** No payment creates an output below the floor: what is below it was there before. */
  lemma PaymentKeepsFloor(u: Utxo, t: Transfer, minUtxo: int, u': Utxo)
    requires Confirmed(u, t, minUtxo, u')
    ensures forall e | e in u' :: e in u || e.out.lovelace >= minUtxo
  {
    var i: nat :| Confirms(u, t, minUtxo, u', i);
    var es := NewEntries(t.txid, Outputs(u[i].out.lovelace, t.payer, t.payee, t.amount));
    forall e | e in u' ensures e in u || e.out.lovelace >= minUtxo {
      SameMembers(u', Without(u, i) + es, e);
      if e in Without(u, i) { assert e in u; } else { assert e in es; }
    }
  }

  ghost predicate HeadRun(us: seq<Utxo>, ts: seq<Transfer>, minUtxo: int) {
    && |us| == |ts| + 1
    && forall n | 0 <= n < |ts| :: Confirmed(us[n], ts[n], minUtxo, us[n + 1])
  }

  function Received(ts: seq<Transfer>, a: Address): int {
    if ts == [] then 0
    else Received(ts[..|ts| - 1], a) + if ts[|ts| - 1].payee == a then ts[|ts| - 1].amount else 0
  }

  function Paid(ts: seq<Transfer>, a: Address): int {
    if ts == [] then 0
    else Paid(ts[..|ts| - 1], a) + if ts[|ts| - 1].payer == a then ts[|ts| - 1].amount else 0
  }

  /** Any sequence of confirmed payments between any addresses conserves the total,
      moves exactly the amounts that were paid, leaves an address that takes no part
      alone, creates no output below the floor, and adds at most one UTxO per payment. */
  lemma {:induction false} HeadRunConserves(us: seq<Utxo>, ts: seq<Transfer>, minUtxo: int, a: Address)
    requires HeadRun(us, ts, minUtxo)
    ensures var first, last := us[0], us[|ts|];
            && Total(last) == Total(first)
            && Balance(last, a) == Balance(first, a) + Received(ts, a) - Paid(ts, a)
            && (forall e | e in last :: e in first || e.out.lovelace >= minUtxo)
            && |last| <= |first| + |ts|
    decreases |ts|
  {
    if ts != [] {
      var n := |ts| - 1;
      assert HeadRun(us[..n + 1], ts[..n], minUtxo);
      HeadRunConserves(us[..n + 1], ts[..n], minUtxo, a);
      PaymentMoves(us[n], ts[n], minUtxo, us[n + 1], a);
      PaymentKeepsFloor(us[n], ts[n], minUtxo, us[n + 1]);
    }
  }

  /** A wallet that is not refused builds exactly a payment that the head can confirm. */
  lemma BuiltIsConfirmable(u: Utxo, i: nat, t: Transfer, minUtxo: int)
    requires t.amount >= minUtxo >= 0 && t.payer != t.payee && (forall e | e in u :: e.txin.txid != t.txid)
    requires IsPick(u, i, t.payer, t.amount, minUtxo)
    ensures exists u' :: Confirmed(u, t, minUtxo, u')
  {
    var u' := Without(u, i) + NewEntries(t.txid, Outputs(u[i].out.lovelace, t.payer, t.payee, t.amount));
    assert Confirms(u, t, minUtxo, u', i);
    assert Confirmed(u, t, minUtxo, u');
  }
}

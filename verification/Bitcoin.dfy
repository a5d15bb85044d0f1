// The part of the Bitcoin transaction format the balanced-open service relies
// on. Hash functions are parameters: nothing is assumed about them beyond the
// width of their results.
module Bitcoin {
  import opened Prelude

  datatype OutPoint = OutPoint(txid: Bytes, vout: nat)

  datatype TxIn = TxIn(prev: OutPoint, sigScript: Bytes, stack: seq<Bytes>)

  datatype TxOut = TxOut(value: int, script: Bytes)

  // Version 2, lock time 0 and sequence 0 throughout, as the service builds them.
  datatype Tx = Tx(ins: seq<TxIn>, outs: seq<TxOut>)

  // sha256, ripemd160(sha256(.)) and the double hash of the serialisation
  // without witnesses.
  datatype Hashes = Hashes(sha256: Bytes -> Bytes, hash160: Bytes -> Bytes, txHash: Tx -> Bytes)

  ghost predicate HashWidths(h: Hashes) {
    && (forall b :: |h.sha256(b)| == 32)
    && (forall b :: |h.hash160(b)| == 20)
    && (forall t :: |h.txHash(t)| == 32)
  }

  predicate IsTxid(b: Bytes) {
    |b| == 32
  }

  predicate IsPubkey(b: Bytes) {
    |b| == 33
  }

  function Bare(input: TxIn): TxIn {
    input.(stack := [])
  }

  // The transaction with every witness removed.
  function WithoutWitness(t: Tx): (r: Tx)
    ensures |r.ins| == |t.ins| && r.outs == t.outs
    ensures forall i :: 0 <= i < |t.ins| ==> r.ins[i] == Bare(t.ins[i])
  {
    Tx(seq(|t.ins|, i requires 0 <= i < |t.ins| => Bare(t.ins[i])), t.outs)
  }

  // BIP 141, section "Transaction ID": the id does not cover witnesses.
  function TxId(h: Hashes, t: Tx): Bytes {
    h.txHash(WithoutWitness(t))
  }

  // balancedTxHexAppearsSigned: a transaction with inputs, none of them empty-handed.
  predicate AppearsSigned(t: Tx) {
    |t.ins| > 0 &&
    forall i :: 0 <= i < |t.ins| ==> t.ins[i].stack != [] || t.ins[i].sigScript != []
  }

  const OP_0: Byte := 0x00
  const OP_2: Byte := 0x52
  const OP_CHECKMULTISIG: Byte := 0xae
  const PUSH_20: Byte := 0x14
  const PUSH_32: Byte := 0x20
  const PUSH_33: Byte := 0x21

  function SmallerKey(a: Bytes, b: Bytes): Bytes {
    if Less(b, a) then b else a
  }

  function LargerKey(a: Bytes, b: Bytes): Bytes {
    if Less(b, a) then a else b
  }

  // BOLT 3, section "Funding Transaction Output": 2 <key1> <key2> 2 CHECKMULTISIG
  // with the keys in ascending order.
  function MultisigScript(a: Bytes, b: Bytes): Bytes {
    [OP_2, PUSH_33] + SmallerKey(a, b) + [PUSH_33] + LargerKey(a, b) + [OP_2, OP_CHECKMULTISIG]
  }

  function WitnessScriptHash(h: Hashes, script: Bytes): Bytes {
    [OP_0, PUSH_32] + h.sha256(script)
  }

  function PubkeyHashScript(h: Hashes, pub: Bytes): Bytes {
    [OP_0, PUSH_20] + h.hash160(pub)
  }

  // The two keys a 2-of-2 script names, in script order.
  function ScriptKeys(script: Bytes): Option<(Bytes, Bytes)> {
    if |script| == 71 && script[..2] == [0x52, 0x21] && script[35] == 0x21 && script[69..] == [0x52, 0xae]
    then Some((script[2..35], script[36..69]))
    else None
  }

  // A 2-of-2 script over these two keys, each once, in ascending order.
  ghost predicate IsMultisigOver(script: Bytes, a: Bytes, b: Bytes) {
    match ScriptKeys(script)
    case None => false
    case Some(keys) => multiset{keys.0, keys.1} == multiset{a, b} && !ComesFirst(keys.1, keys.0)
  }

  // An output that pays to the hash of such a script.
  ghost predicate LocksToBoth(h: Hashes, output: Bytes, a: Bytes, b: Bytes) {
    exists s: Bytes :: output == [0x00, 0x20] + h.sha256(s) && IsMultisigOver(s, a, b)
  }

  // The script names each of the two keys once, the one that comes first in front.
  lemma MultisigScriptNamesBothKeys(a: Bytes, b: Bytes)
    requires IsPubkey(a) && IsPubkey(b)
    ensures IsMultisigOver(MultisigScript(a, b), a, b)
    ensures ScriptKeys(MultisigScript(a, b)) == Some(if ComesFirst(b, a) then (b, a) else (a, b))
  {
    LessIsLexicographic(a, b);
    LessIsLexicographic(b, a);
    LessIsAsymmetric(a, b);
    LessIsAsymmetric(b, a);
    var s := MultisigScript(a, b);
    var k1, k2 := SmallerKey(a, b), LargerKey(a, b);
    assert |s| == 71;
    assert s[..2] == [OP_2, PUSH_33];
    assert s[2..35] == k1;
    assert s[36..69] == k2;
    assert s[69..] == [OP_2, OP_CHECKMULTISIG];
  }

  lemma MultisigScriptIgnoresKeyOrder(a: Bytes, b: Bytes)
    ensures MultisigScript(a, b) == MultisigScript(b, a)
  {
    LessIsTotal(a, b);
    LessIsAsymmetric(a, b);
    LessIsAsymmetric(b, a);
  }
}

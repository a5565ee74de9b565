/** The command line tool that prints calldata for a LiteAccount, and its agreement with the account. */
module Sender {
  import opened Words
  import opened Evm
  import opened LiteCode
  import opened LiteAccount
  import Hex

  /** What the tool hashes and signs. */
  function Message(nonce: nat, contract: Address, target: Address, cd: seq<Byte>): (m: seq<Byte>) {
    BytesOf(contract, 20) + (BytesOf(nonce, 16) + (BytesOf(target, 20) + cd))
  }

  /** The calldata the printed text stands for. */
  function Calldata(sig: seq<Byte>, nonce: nat, target: Address, cd: seq<Byte>): (r: seq<Byte>) {
    sig + (BytesOf(nonce, 16) + (BytesOf(target, 20) + cd))
  }

  /** Signs the message with `sign` and prints signature, nonce, target and calldata. */
  method LiteArbitraryCd(sign: seq<Byte> -> seq<Byte>, nonce: nat, contract: Address, target: Address, cd: seq<Byte>)
    returns (text: string)
    requires nonce < Pow256(16)
    ensures Hex.Decode(text) == Some(Calldata(sign(Message(nonce, contract, target, cd)), nonce, target, cd))
  {
    var x: seq<Byte> := [];
    x := x + BytesOf(contract, 20);
    x := x + BytesOf(nonce, 16);
    x := x + BytesOf(target, 20);
    x := x + cd;
    assert x == Message(nonce, contract, target, cd);
    var sig := sign(x);
    text := Hex.Encode(sig) + Hex.Encode(BytesOf(nonce, 16)) + Hex.Encode(BytesOf(target, 20)) + Hex.Encode(cd);
    PrintedText(sig, nonce, target, cd);
  }

  lemma PrintedText(sig: seq<Byte>, nonce: nat, target: Address, cd: seq<Byte>)
    ensures Hex.Decode(Hex.Encode(sig) + Hex.Encode(BytesOf(nonce, 16)) + Hex.Encode(BytesOf(target, 20)) + Hex.Encode(cd))
            == Some(Calldata(sig, nonce, target, cd))
  {
    Hex.EncodeFour(sig, BytesOf(nonce, 16), BytesOf(target, 20), cd);
    Hex.DecodeEncode(Calldata(sig, nonce, target, cd));
  }

  /** The account takes the calldata apart the way the tool put it together. */
  lemma AccountReads(env: Env, sig: seq<Byte>, nonce: nat, target: Address, cd: seq<Byte>)
    requires |sig| == 64 && env.calldata == Calldata(sig, nonce, target, cd)
    ensures |env.calldata| >= 100
    ensures Slice(env.calldata, 0, 64) == sig
    ensures Nonce(env.calldata) == BytesOf(nonce, 16)
    ensures Signed(env) == Message(nonce, env.self, target, cd)
    ensures ForwardRequest(env) == CallRecord(ByCall, target, 0, cd)
  {
    var c := env.calldata;
    assert c[..64] == sig;
    assert c[64..] == BytesOf(nonce, 16) + (BytesOf(target, 20) + cd);
    assert c[64..80] == c[64..][..16] == BytesOf(nonce, 16);
    assert c[80..100] == c[64..][16..36] == BytesOf(target, 20);
    assert c[100..] == c[64..][36..] == cd;
    Widths();
    NatOfBytesOf(target, 20);
  }

  /** Sent by anyone but the owner to an enabled account that has not seen the nonce, the printed
      text makes the byte code hash exactly the signed message, verify exactly the tool's signature
      under the operator key, and call exactly the chosen target with exactly the chosen calldata. */
  lemma SenderAgrees(owner: Address, operator: Word, env: Env, store: Storage, sig: seq<Byte>, nonce: nat,
        target: Address, cd: seq<Byte>)
    requires |sig| == 64 && env.calldata == Calldata(sig, nonce, target, cd)
    requires env.caller != owner && Load(store, 0) != 0 && Load(store, env.keccak([1] + BytesOf(nonce, 16))) == 0
    ensures var claimed := store[env.keccak([1] + BytesOf(nonce, 16)) := 1];
            var hash := CallRecord(ByStatic, ADDR_SHA512, 0, Message(nonce, env.self, target, cd));
            var digest := env.answer(hash, claimed, []).data;
            var check := CallRecord(ByStatic, ADDR_EDVERIFY, 0, digest + (BytesOf(operator, 32) + sig));
            var forward := CallRecord(ByCall, target, 0, cd);
            var a := env.answer(forward, claimed, [hash, check]);
            |digest| == 64 && env.answer(check, claimed, [hash]).ok ==>
              Final(Lite(owner, operator), env, Start(store)) ==
              Some(if a.ok then Returned(a.data, a.store, [hash, check, forward]) else Reverted(a.data, [hash, check, forward]))
  {
    AccountReads(env, sig, nonce, target, cd);
    LiteRefines(owner, operator, env, store);
    var claimed := store[NonceSlot(env) := 1];
    var digest := env.answer(HashRequest(env), claimed, []).data;
    if |digest| == 64 {
      assert digest[..64] == digest;
    }
  }
}

/** LiteAccount: the nonce-checked, signature-checked call forwarder, as Huff source and as the
    bytes that LiteFactory deploys. */
module LiteCode {
  import opened Words
  import opened Evm
  import opened Huff
  import opened Relay

  // Labels: 0 INTERNAL_ERR, 1 REVERT, 2 PRIVILEGED, 3 FALLBACK, 4 SUCCESS.

  // owner
  const OWNING: Program :=
    Then(Hole(20, 0), Done)

  // caller eq PRIVILEGED jumpi
  const ENTRY: Program :=
    Then(Op(0x33), Then(Op(0x14), Then(Ref(2), Then(Op(0x57), Done))))

  // 0x0 sload FALLBACK jumpi
  const ENABLING: Program :=
    Then(Num(0, 0), Then(Op(0x54), Then(Ref(3), Then(Op(0x57), Done))))

  // INTERNAL_ERR: 0xfe835e35
  const ERRING: Program :=
    Then(Label(0), Then(Num(4, 0xfe835e35), Done))

  // REVERT: 0x0 mstore 0x04 0x1c revert
  const REVERTING: Program :=
    Then(Label(1), Then(Num(0, 0), Then(Op(0x52), Then(Num(1, 0x04), Then(Num(1, 0x1c), Then(Op(0xfd),
    Done))))))

  // PRIVILEGED: 0x0 calldataload 0x0 sstore
  const SWITCHING: Program :=
    Then(Label(2), Then(Num(0, 0), Then(Op(0x35), Then(Num(0, 0), Then(Op(0x55), Done)))))

  // 0x0 0x0 return
  const CLOSING: Program :=
    Then(Num(0, 0), Then(Num(0, 0), Then(Op(0xf3), Done)))

  // FALLBACK: 0x40 0x60 0x64 dup1 calldatasize sub
  const SIZING: Program :=
    Then(Label(3), Then(Num(1, 0x40), Then(Num(1, 0x60), Then(Num(1, 0x64), Then(Copy(0), Then(Op(0x36),
    Then(Op(0x03), Done)))))))

  // dup4 calldatasize sub dup5 0x20 calldatacopy
  const COPYING: Program :=
    Then(Copy(3), Then(Op(0x36), Then(Op(0x03), Then(Copy(4), Then(Num(1, 0x20), Then(Op(0x37), Done))))))

  // 0x01 0x01 0x0 mstore 0x11 0x1f sha3
  const SLOTTING: Program :=
    Then(Num(1, 0x01), Then(Num(1, 0x01), Then(Num(0, 0), Then(Op(0x52), Then(Num(1, 0x11), Then(Num(1, 0x1f),
    Then(Op(0x20), Done)))))))

  // dup1 sload INTERNAL_ERR jumpi sstore
  const CLAIMING: Program :=
    Then(Copy(0), Then(Op(0x54), Then(Ref(0), Then(Op(0x57), Then(Op(0x55), Done)))))

  // address 0x0 mstore
  const ADDRESSING: Program :=
    Then(Op(0x30), Then(Num(0, 0), Then(Op(0x52), Done)))

  // 0x0 0x0 0x2c calldatasize sub
  const MEASURING: Program :=
    Then(Num(0, 0), Then(Num(0, 0), Then(Num(1, 0x2c), Then(Op(0x36), Then(Op(0x03), Done)))))

  // 0x0c 0x2f6bc5ac6b08bf93bc6fc9be156449b676bf8bb2 gas staticcall
  const HASHING: Program :=
    Then(Num(1, 0x0c), Then(Num(20, 0x2f6bc5ac6b08bf93bc6fc9be156449b676bf8bb2), Then(Op(0x5a), Then(Op(0xfa),
    Done))))

  // operator
  const KEYING: Program :=
    Then(Hole(32, 1), Done)

  // dup6 mstore dup5 0x0 dup6 calldatacopy
  const SIGNING: Program :=
    Then(Copy(5), Then(Op(0x52), Then(Copy(4), Then(Num(0, 0), Then(Copy(5), Then(Op(0x37), Done))))))

  // 0x0 0x0 0xa0 0x0
  const VERIFYING: Program :=
    Then(Num(0, 0), Then(Num(0, 0), Then(Num(1, 0xa0), Then(Num(0, 0), Done))))

  // 0xc3e443be2cfa4f41a5f5e4978d012847d355b419 gas staticcall
  const CHECKING: Program :=
    Then(Num(20, 0xc3e443be2cfa4f41a5f5e4978d012847d355b419), Then(Op(0x5a), Then(Op(0xfa), Done)))

  // 0xcba605a3 dup2 iszero REVERT jumpi
  const REFUSING: Program :=
    Then(Num(4, 0xcba605a3), Then(Copy(1), Then(Op(0x15), Then(Ref(1), Then(Op(0x57), Done)))))

  // dup4 dup6 0x0 calldatacopy
  const LOADING: Program :=
    Then(Copy(3), Then(Copy(5), Then(Num(0, 0), Then(Op(0x37), Done))))

  // 0x0 0x0 dup6 0x0 0x0
  const ARRANGING: Program :=
    Then(Num(0, 0), Then(Num(0, 0), Then(Copy(5), Then(Num(0, 0), Then(Num(0, 0), Done)))))

  // 0x50 calldataload dup12 shr
  const AIMING: Program :=
    Then(Num(1, 0x50), Then(Op(0x35), Then(Copy(11), Then(Op(0x1c), Done))))

  // gas call
  const FORWARDING: Program :=
    Then(Op(0x5a), Then(Op(0xf1), Done))

  const LABELS: seq<Word> := [0x21, 0x27, 0x2f, 0x37, 0xea]

  function LiteLink(owner: Address, operator: Word): (link: Link) {
    Link(LABELS, [owner, operator])
  }

  // The hexadecimal digits that LiteFactory concatenates, in four parts, each followed by `rest`.

  function GuardPart(owner: Address, rest: seq<Byte>): (code: seq<Byte>) {
    BytesOf(0x73 * ADDRESS_LIMIT + owner, 21) + (
    BytesOf(0x331461002f57, 6) + (
    BytesOf(0x5f5461003757, 6) + (
    BytesOf(0x5b63fe835e35, 6) + (
    BytesOf(0x5b5f526004601cfd, 8) + (
    BytesOf(0x5b5f355f55, 5) + (
    BytesOf(0x5f5ff3, 3) + rest))))))
  }

  function ClaimPart(rest: seq<Byte>): (code: seq<Byte>) {
    BytesOf(0x5b604060606064803603, 10) + (
    BytesOf(0x83360384602037, 7) + (
    BytesOf(0x600160015f526011601f20, 11) + (
    BytesOf(0x80546100215755, 7) + rest)))
  }

  function VerifyPart(operator: Word, rest: seq<Byte>): (code: seq<Byte>) {
    BytesOf(0x305f52, 3) + (
    BytesOf(0x5f5f602c3603, 6) + (
    BytesOf(0x600c732f6bc5ac6b08bf93bc6fc9be156449b676bf8bb25afa, 25) + (
    BytesOf(0x3d5f5f3e, 4) + (
    BytesOf(0x7f * WORD_LIMIT + operator, 33) + (
    BytesOf(0x8552845f8537, 6) + (
    BytesOf(0x5f5f60a05f, 5) + (
    BytesOf(0x73c3e443be2cfa4f41a5f5e4978d012847d355b4195afa, 23) + (
    BytesOf(0x63cba605a3811561002757, 11) + rest))))))))
  }

  function ForwardPart(rest: seq<Byte>): (code: seq<Byte>) {
    BytesOf(0x83855f37, 4) + (
    BytesOf(0x5f5f855f5f, 5) + (
    BytesOf(0x6050358b1c, 5) + (
    BytesOf(0x5af1, 2) + (
    BytesOf(0x3d5f5f3e, 4) + (
    BytesOf(0x3d5f826100ea57fd, 8) + (
    BytesOf(0x5bf3, 2) + rest))))))
  }

  /** The account code that LiteFactory deploys. */
  function Lite(owner: Address, operator: Word): (code: seq<Byte>) {
    GuardPart(owner, ClaimPart(VerifyPart(operator, ForwardPart([]))))
  }

  lemma EnterOwning(c: Chart, link: Link, code: seq<Byte>, rest: seq<Byte>, owner: Address)
    requires Charts(c, link, code) && link.labels == LABELS && At(link.args, 0) == owner
    requires Lands(After(code), 0, 0) && Holds(code, 0, BytesOf(0x73 * ADDRESS_LIMIT + owner, 21) + rest)
    ensures (OWNING, 0) in c.stretches
    ensures Lands(After(code), 0, 21) && Holds(code, 21, rest)
  {
    EnterHex(c, OWNING, 0, 21, 0x73 * ADDRESS_LIMIT + owner, rest, link, code);
  }

  lemma EnterEntry(c: Chart, link: Link, code: seq<Byte>, rest: seq<Byte>)
    requires Charts(c, link, code) && link.labels == LABELS
    requires Lands(After(code), 0, 21) && Holds(code, 21, BytesOf(0x331461002f57, 6) + rest)
    ensures (ENTRY, 21) in c.stretches
    ensures Lands(After(code), 0, 27) && Holds(code, 27, rest)
  {
    EnterHex(c, ENTRY, 21, 27, 0x331461002f57, rest, link, code);
  }

  lemma EnterEnabling(c: Chart, link: Link, code: seq<Byte>, rest: seq<Byte>)
    requires Charts(c, link, code) && link.labels == LABELS
    requires Lands(After(code), 0, 27) && Holds(code, 27, BytesOf(0x5f5461003757, 6) + rest)
    ensures (ENABLING, 27) in c.stretches
    ensures Lands(After(code), 0, 33) && Holds(code, 33, rest)
  {
    EnterHex(c, ENABLING, 27, 33, 0x5f5461003757, rest, link, code);
  }

  lemma EnterErring(c: Chart, link: Link, code: seq<Byte>, rest: seq<Byte>)
    requires Charts(c, link, code) && link.labels == LABELS
    requires Lands(After(code), 0, 33) && Holds(code, 33, BytesOf(0x5b63fe835e35, 6) + rest)
    ensures (ERRING, 33) in c.stretches && 33 in c.targets
    ensures Lands(After(code), 0, 39) && Holds(code, 39, rest)
  {
    EnterHex(c, ERRING, 33, 39, 0x5b63fe835e35, rest, link, code);
  }

  lemma EnterReverting(c: Chart, link: Link, code: seq<Byte>, rest: seq<Byte>)
    requires Charts(c, link, code) && link.labels == LABELS
    requires Lands(After(code), 0, 39) && Holds(code, 39, BytesOf(0x5b5f526004601cfd, 8) + rest)
    ensures (REVERTING, 39) in c.stretches && 39 in c.targets
    ensures Lands(After(code), 0, 47) && Holds(code, 47, rest)
  {
    EnterHex(c, REVERTING, 39, 47, 0x5b5f526004601cfd, rest, link, code);
  }

  lemma EnterSwitching(c: Chart, link: Link, code: seq<Byte>, rest: seq<Byte>)
    requires Charts(c, link, code) && link.labels == LABELS
    requires Lands(After(code), 0, 47) && Holds(code, 47, BytesOf(0x5b5f355f55, 5) + rest)
    ensures (SWITCHING, 47) in c.stretches && 47 in c.targets
    ensures Lands(After(code), 0, 52) && Holds(code, 52, rest)
  {
    EnterHex(c, SWITCHING, 47, 52, 0x5b5f355f55, rest, link, code);
  }

  lemma EnterClosing(c: Chart, link: Link, code: seq<Byte>, rest: seq<Byte>)
    requires Charts(c, link, code) && link.labels == LABELS
    requires Lands(After(code), 0, 52) && Holds(code, 52, BytesOf(0x5f5ff3, 3) + rest)
    ensures (CLOSING, 52) in c.stretches
    ensures Lands(After(code), 0, 55) && Holds(code, 55, rest)
  {
    EnterHex(c, CLOSING, 52, 55, 0x5f5ff3, rest, link, code);
  }

  lemma EnterSizing(c: Chart, link: Link, code: seq<Byte>, rest: seq<Byte>)
    requires Charts(c, link, code) && link.labels == LABELS
    requires Lands(After(code), 0, 55) && Holds(code, 55, BytesOf(0x5b604060606064803603, 10) + rest)
    ensures (SIZING, 55) in c.stretches && 55 in c.targets
    ensures Lands(After(code), 0, 65) && Holds(code, 65, rest)
  {
    EnterHex(c, SIZING, 55, 65, 0x5b604060606064803603, rest, link, code);
  }

  lemma EnterCopying(c: Chart, link: Link, code: seq<Byte>, rest: seq<Byte>)
    requires Charts(c, link, code) && link.labels == LABELS
    requires Lands(After(code), 0, 65) && Holds(code, 65, BytesOf(0x83360384602037, 7) + rest)
    ensures (COPYING, 65) in c.stretches
    ensures Lands(After(code), 0, 72) && Holds(code, 72, rest)
  {
    EnterHex(c, COPYING, 65, 72, 0x83360384602037, rest, link, code);
  }

  lemma EnterSlotting(c: Chart, link: Link, code: seq<Byte>, rest: seq<Byte>)
    requires Charts(c, link, code) && link.labels == LABELS
    requires Lands(After(code), 0, 72) && Holds(code, 72, BytesOf(0x600160015f526011601f20, 11) + rest)
    ensures (SLOTTING, 72) in c.stretches
    ensures Lands(After(code), 0, 83) && Holds(code, 83, rest)
  {
    EnterHex(c, SLOTTING, 72, 83, 0x600160015f526011601f20, rest, link, code);
  }

  lemma EnterClaiming(c: Chart, link: Link, code: seq<Byte>, rest: seq<Byte>)
    requires Charts(c, link, code) && link.labels == LABELS
    requires Lands(After(code), 0, 83) && Holds(code, 83, BytesOf(0x80546100215755, 7) + rest)
    ensures (CLAIMING, 83) in c.stretches
    ensures Lands(After(code), 0, 90) && Holds(code, 90, rest)
  {
    EnterHex(c, CLAIMING, 83, 90, 0x80546100215755, rest, link, code);
  }

  lemma EnterAddressing(c: Chart, link: Link, code: seq<Byte>, rest: seq<Byte>)
    requires Charts(c, link, code) && link.labels == LABELS
    requires Lands(After(code), 0, 90) && Holds(code, 90, BytesOf(0x305f52, 3) + rest)
    ensures (ADDRESSING, 90) in c.stretches
    ensures Lands(After(code), 0, 93) && Holds(code, 93, rest)
  {
    EnterHex(c, ADDRESSING, 90, 93, 0x305f52, rest, link, code);
  }

  lemma EnterMeasuring(c: Chart, link: Link, code: seq<Byte>, rest: seq<Byte>)
    requires Charts(c, link, code) && link.labels == LABELS
    requires Lands(After(code), 0, 93) && Holds(code, 93, BytesOf(0x5f5f602c3603, 6) + rest)
    ensures (MEASURING, 93) in c.stretches
    ensures Lands(After(code), 0, 99) && Holds(code, 99, rest)
  {
    EnterHex(c, MEASURING, 93, 99, 0x5f5f602c3603, rest, link, code);
  }

  lemma EnterHashing(c: Chart, link: Link, code: seq<Byte>, rest: seq<Byte>)
    requires Charts(c, link, code) && link.labels == LABELS
    requires Lands(After(code), 0, 99) && Holds(code, 99, BytesOf(0x600c732f6bc5ac6b08bf93bc6fc9be156449b676bf8bb25afa, 25) + rest)
    ensures (HASHING, 99) in c.stretches
    ensures Lands(After(code), 0, 124) && Holds(code, 124, rest)
  {
    EnterHex(c, HASHING, 99, 124, 0x600c732f6bc5ac6b08bf93bc6fc9be156449b676bf8bb25afa, rest, link, code);
  }

  lemma EnterTaking(c: Chart, link: Link, code: seq<Byte>, rest: seq<Byte>)
    requires Charts(c, link, code) && link.labels == LABELS
    requires Lands(After(code), 0, 124) && Holds(code, 124, BytesOf(0x3d5f5f3e, 4) + rest)
    ensures (TAKING, 124) in c.stretches
    ensures Lands(After(code), 0, 128) && Holds(code, 128, rest)
  {
    EnterHex(c, TAKING, 124, 128, 0x3d5f5f3e, rest, link, code);
  }

  lemma EnterKeying(c: Chart, link: Link, code: seq<Byte>, rest: seq<Byte>, operator: Word)
    requires Charts(c, link, code) && link.labels == LABELS && At(link.args, 1) == operator
    requires Lands(After(code), 0, 128) && Holds(code, 128, BytesOf(0x7f * WORD_LIMIT + operator, 33) + rest)
    ensures (KEYING, 128) in c.stretches
    ensures Lands(After(code), 0, 161) && Holds(code, 161, rest)
  {
    EnterHex(c, KEYING, 128, 161, 0x7f * WORD_LIMIT + operator, rest, link, code);
  }

  lemma EnterSigning(c: Chart, link: Link, code: seq<Byte>, rest: seq<Byte>)
    requires Charts(c, link, code) && link.labels == LABELS
    requires Lands(After(code), 0, 161) && Holds(code, 161, BytesOf(0x8552845f8537, 6) + rest)
    ensures (SIGNING, 161) in c.stretches
    ensures Lands(After(code), 0, 167) && Holds(code, 167, rest)
  {
    EnterHex(c, SIGNING, 161, 167, 0x8552845f8537, rest, link, code);
  }

  lemma EnterVerifying(c: Chart, link: Link, code: seq<Byte>, rest: seq<Byte>)
    requires Charts(c, link, code) && link.labels == LABELS
    requires Lands(After(code), 0, 167) && Holds(code, 167, BytesOf(0x5f5f60a05f, 5) + rest)
    ensures (VERIFYING, 167) in c.stretches
    ensures Lands(After(code), 0, 172) && Holds(code, 172, rest)
  {
    EnterHex(c, VERIFYING, 167, 172, 0x5f5f60a05f, rest, link, code);
  }

  lemma EnterChecking(c: Chart, link: Link, code: seq<Byte>, rest: seq<Byte>)
    requires Charts(c, link, code) && link.labels == LABELS
    requires Lands(After(code), 0, 172) && Holds(code, 172, BytesOf(0x73c3e443be2cfa4f41a5f5e4978d012847d355b4195afa, 23) + rest)
    ensures (CHECKING, 172) in c.stretches
    ensures Lands(After(code), 0, 195) && Holds(code, 195, rest)
  {
    EnterHex(c, CHECKING, 172, 195, 0x73c3e443be2cfa4f41a5f5e4978d012847d355b4195afa, rest, link, code);
  }

  lemma EnterRefusing(c: Chart, link: Link, code: seq<Byte>, rest: seq<Byte>)
    requires Charts(c, link, code) && link.labels == LABELS
    requires Lands(After(code), 0, 195) && Holds(code, 195, BytesOf(0x63cba605a3811561002757, 11) + rest)
    ensures (REFUSING, 195) in c.stretches
    ensures Lands(After(code), 0, 206) && Holds(code, 206, rest)
  {
    EnterHex(c, REFUSING, 195, 206, 0x63cba605a3811561002757, rest, link, code);
  }

  lemma EnterLoading(c: Chart, link: Link, code: seq<Byte>, rest: seq<Byte>)
    requires Charts(c, link, code) && link.labels == LABELS
    requires Lands(After(code), 0, 206) && Holds(code, 206, BytesOf(0x83855f37, 4) + rest)
    ensures (LOADING, 206) in c.stretches
    ensures Lands(After(code), 0, 210) && Holds(code, 210, rest)
  {
    EnterHex(c, LOADING, 206, 210, 0x83855f37, rest, link, code);
  }

  lemma EnterArranging(c: Chart, link: Link, code: seq<Byte>, rest: seq<Byte>)
    requires Charts(c, link, code) && link.labels == LABELS
    requires Lands(After(code), 0, 210) && Holds(code, 210, BytesOf(0x5f5f855f5f, 5) + rest)
    ensures (ARRANGING, 210) in c.stretches
    ensures Lands(After(code), 0, 215) && Holds(code, 215, rest)
  {
    EnterHex(c, ARRANGING, 210, 215, 0x5f5f855f5f, rest, link, code);
  }

  lemma EnterAiming(c: Chart, link: Link, code: seq<Byte>, rest: seq<Byte>)
    requires Charts(c, link, code) && link.labels == LABELS
    requires Lands(After(code), 0, 215) && Holds(code, 215, BytesOf(0x6050358b1c, 5) + rest)
    ensures (AIMING, 215) in c.stretches
    ensures Lands(After(code), 0, 220) && Holds(code, 220, rest)
  {
    EnterHex(c, AIMING, 215, 220, 0x6050358b1c, rest, link, code);
  }

  lemma EnterForwarding(c: Chart, link: Link, code: seq<Byte>, rest: seq<Byte>)
    requires Charts(c, link, code) && link.labels == LABELS
    requires Lands(After(code), 0, 220) && Holds(code, 220, BytesOf(0x5af1, 2) + rest)
    ensures (FORWARDING, 220) in c.stretches
    ensures Lands(After(code), 0, 222) && Holds(code, 222, rest)
  {
    EnterHex(c, FORWARDING, 220, 222, 0x5af1, rest, link, code);
  }

  lemma EnterRelaying(c: Chart, link: Link, code: seq<Byte>, rest: seq<Byte>)
    requires Charts(c, link, code) && link.labels == LABELS
    requires Lands(After(code), 0, 222) && Holds(code, 222, BytesOf(0x3d5f5f3e, 4) + rest)
    ensures (TAKING, 222) in c.stretches
    ensures Lands(After(code), 0, 226) && Holds(code, 226, rest)
  {
    EnterHex(c, TAKING, 222, 226, 0x3d5f5f3e, rest, link, code);
  }

  lemma EnterAnswering(c: Chart, link: Link, code: seq<Byte>, rest: seq<Byte>)
    requires Charts(c, link, code) && link.labels == LABELS
    requires Lands(After(code), 0, 226) && Holds(code, 226, BytesOf(0x3d5f826100ea57fd, 8) + rest)
    ensures (ANSWERING, 226) in c.stretches
    ensures Lands(After(code), 0, 234) && Holds(code, 234, rest)
  {
    EnterHex(c, ANSWERING, 226, 234, 0x3d5f826100ea57fd, rest, link, code);
  }

  lemma EnterSucceeding(c: Chart, link: Link, code: seq<Byte>, rest: seq<Byte>)
    requires Charts(c, link, code) && link.labels == LABELS
    requires Lands(After(code), 0, 234) && Holds(code, 234, BytesOf(0x5bf3, 2) + rest)
    ensures (SUCCEEDING, 234) in c.stretches && 234 in c.targets
    ensures Lands(After(code), 0, 236) && Holds(code, 236, rest)
  {
    EnterHex(c, SUCCEEDING, 234, 236, 0x5bf3, rest, link, code);
  }

  lemma EnterGuardPart(c: Chart, link: Link, code: seq<Byte>, owner: Address, rest: seq<Byte>)
    requires Charts(c, link, code) && link.labels == LABELS && At(link.args, 0) == owner
    requires Lands(After(code), 0, 0) && Holds(code, 0, GuardPart(owner, rest))
    ensures Lands(After(code), 0, 55) && Holds(code, 55, rest)
    ensures (OWNING, 0) in c.stretches
    ensures (ENTRY, 21) in c.stretches
    ensures (ENABLING, 27) in c.stretches
    ensures (ERRING, 33) in c.stretches && 33 in c.targets
    ensures (REVERTING, 39) in c.stretches && 39 in c.targets
    ensures (SWITCHING, 47) in c.stretches && 47 in c.targets
    ensures (CLOSING, 52) in c.stretches
  {
    var fromClosing := BytesOf(0x5f5ff3, 3) + rest;
    var fromSwitching := BytesOf(0x5b5f355f55, 5) + fromClosing;
    var fromReverting := BytesOf(0x5b5f526004601cfd, 8) + fromSwitching;
    var fromErring := BytesOf(0x5b63fe835e35, 6) + fromReverting;
    var fromEnabling := BytesOf(0x5f5461003757, 6) + fromErring;
    var fromEntry := BytesOf(0x331461002f57, 6) + fromEnabling;
    EnterOwning(c, link, code, fromEntry, owner);
    EnterEntry(c, link, code, fromEnabling);
    EnterEnabling(c, link, code, fromErring);
    EnterErring(c, link, code, fromReverting);
    EnterReverting(c, link, code, fromSwitching);
    EnterSwitching(c, link, code, fromClosing);
    EnterClosing(c, link, code, rest);
  }

  lemma EnterClaimPart(c: Chart, link: Link, code: seq<Byte>, rest: seq<Byte>)
    requires Charts(c, link, code) && link.labels == LABELS
    requires Lands(After(code), 0, 55) && Holds(code, 55, ClaimPart(rest))
    ensures Lands(After(code), 0, 90) && Holds(code, 90, rest)
    ensures (SIZING, 55) in c.stretches && 55 in c.targets
    ensures (COPYING, 65) in c.stretches
    ensures (SLOTTING, 72) in c.stretches
    ensures (CLAIMING, 83) in c.stretches
  {
    var fromClaiming := BytesOf(0x80546100215755, 7) + rest;
    var fromSlotting := BytesOf(0x600160015f526011601f20, 11) + fromClaiming;
    var fromCopying := BytesOf(0x83360384602037, 7) + fromSlotting;
    EnterSizing(c, link, code, fromCopying);
    EnterCopying(c, link, code, fromSlotting);
    EnterSlotting(c, link, code, fromClaiming);
    EnterClaiming(c, link, code, rest);
  }

  lemma EnterVerifyPart(c: Chart, link: Link, code: seq<Byte>, operator: Word, rest: seq<Byte>)
    requires Charts(c, link, code) && link.labels == LABELS && At(link.args, 1) == operator
    requires Lands(After(code), 0, 90) && Holds(code, 90, VerifyPart(operator, rest))
    ensures Lands(After(code), 0, 206) && Holds(code, 206, rest)
    ensures (ADDRESSING, 90) in c.stretches
    ensures (MEASURING, 93) in c.stretches
    ensures (HASHING, 99) in c.stretches
    ensures (TAKING, 124) in c.stretches
    ensures (KEYING, 128) in c.stretches
    ensures (SIGNING, 161) in c.stretches
    ensures (VERIFYING, 167) in c.stretches
    ensures (CHECKING, 172) in c.stretches
    ensures (REFUSING, 195) in c.stretches
  {
    var fromRefusing := BytesOf(0x63cba605a3811561002757, 11) + rest;
    var fromChecking := BytesOf(0x73c3e443be2cfa4f41a5f5e4978d012847d355b4195afa, 23) + fromRefusing;
    var fromVerifying := BytesOf(0x5f5f60a05f, 5) + fromChecking;
    var fromSigning := BytesOf(0x8552845f8537, 6) + fromVerifying;
    var fromKeying := BytesOf(0x7f * WORD_LIMIT + operator, 33) + fromSigning;
    var fromTaking := BytesOf(0x3d5f5f3e, 4) + fromKeying;
    var fromHashing := BytesOf(0x600c732f6bc5ac6b08bf93bc6fc9be156449b676bf8bb25afa, 25) + fromTaking;
    var fromMeasuring := BytesOf(0x5f5f602c3603, 6) + fromHashing;
    EnterAddressing(c, link, code, fromMeasuring);
    EnterMeasuring(c, link, code, fromHashing);
    EnterHashing(c, link, code, fromTaking);
    EnterTaking(c, link, code, fromKeying);
    EnterKeying(c, link, code, fromSigning, operator);
    EnterSigning(c, link, code, fromVerifying);
    EnterVerifying(c, link, code, fromChecking);
    EnterChecking(c, link, code, fromRefusing);
    EnterRefusing(c, link, code, rest);
  }

  lemma EnterForwardPart(c: Chart, link: Link, code: seq<Byte>, rest: seq<Byte>)
    requires Charts(c, link, code) && link.labels == LABELS
    requires Lands(After(code), 0, 206) && Holds(code, 206, ForwardPart(rest))
    ensures Lands(After(code), 0, 236) && Holds(code, 236, rest)
    ensures (LOADING, 206) in c.stretches
    ensures (ARRANGING, 210) in c.stretches
    ensures (AIMING, 215) in c.stretches
    ensures (FORWARDING, 220) in c.stretches
    ensures (TAKING, 222) in c.stretches
    ensures (ANSWERING, 226) in c.stretches
    ensures (SUCCEEDING, 234) in c.stretches && 234 in c.targets
  {
    var fromSucceeding := BytesOf(0x5bf3, 2) + rest;
    var fromAnswering := BytesOf(0x3d5f826100ea57fd, 8) + fromSucceeding;
    var fromRelaying := BytesOf(0x3d5f5f3e, 4) + fromAnswering;
    var fromForwarding := BytesOf(0x5af1, 2) + fromRelaying;
    var fromAiming := BytesOf(0x6050358b1c, 5) + fromForwarding;
    var fromArranging := BytesOf(0x5f5f855f5f, 5) + fromAiming;
    EnterLoading(c, link, code, fromArranging);
    EnterArranging(c, link, code, fromAiming);
    EnterAiming(c, link, code, fromForwarding);
    EnterForwarding(c, link, code, fromRelaying);
    EnterRelaying(c, link, code, fromAnswering);
    EnterAnswering(c, link, code, fromSucceeding);
    EnterSucceeding(c, link, code, rest);
  }

  /** Every stretch is in its place and every label is a valid jump target. */
  ghost predicate Ready(c: Chart, link: Link, code: seq<Byte>) {
    && Charts(c, link, code) && link.labels == LABELS
    && 0x21 in c.targets && 0x27 in c.targets && 0x2f in c.targets && 0x37 in c.targets && 0xea in c.targets
    && (OWNING, 0) in c.stretches && (ENTRY, 21) in c.stretches
    && (ERRING, 33) in c.stretches && (REVERTING, 39) in c.stretches
    && (SWITCHING, 47) in c.stretches && (SIZING, 55) in c.stretches
    && (COPYING, 65) in c.stretches && (SLOTTING, 72) in c.stretches
    && (CLAIMING, 83) in c.stretches && (ADDRESSING, 90) in c.stretches
    && (HASHING, 99) in c.stretches && (TAKING, 124) in c.stretches
    && (KEYING, 128) in c.stretches && (SIGNING, 161) in c.stretches
    && (VERIFYING, 167) in c.stretches && (REFUSING, 195) in c.stretches
    && (LOADING, 206) in c.stretches && (AIMING, 215) in c.stretches
    && (FORWARDING, 220) in c.stretches && (TAKING, 222) in c.stretches
    && (ANSWERING, 226) in c.stretches && (SUCCEEDING, 234) in c.stretches
    && (CLOSING, 52) in c.stretches
    && (MEASURING, 93) in c.stretches
    && (ARRANGING, 210) in c.stretches
    && (ENABLING, 27) in c.stretches
    && (CHECKING, 172) in c.stretches
  }

  /** The factory's bytes are the assembled Huff program, stretch by stretch, and all of its labels
      are valid jump targets. */
  lemma LiteLoads(owner: Address, operator: Word) returns (c: Chart)
    ensures Ready(c, LiteLink(owner, operator), Lite(owner, operator))
  {
    var link, code := LiteLink(owner, operator), Lite(owner, operator);
    c := DrawChart(link, code);
    var forward := ForwardPart([]);
    var verify := VerifyPart(operator, forward);
    var claim := ClaimPart(verify);
    EnterGuardPart(c, link, code, owner, claim);
    EnterClaimPart(c, link, code, verify);
    EnterVerifyPart(c, link, code, operator, forward);
    EnterForwardPart(c, link, code, []);
  }
}

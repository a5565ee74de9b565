/** SafetyRouter: the Huff program and the bytes it assembles to. */
module RouterCode {
  import opened Words
  import opened Evm
  import opened Huff
  import opened Relay

  // Labels: 0 FAIL, 4 SUCCESS.

  // 0x0 calldataload dup1 extcodehash
  const LOADING: Program :=
    Then(Num(0, 0), Then(Op(0x35), Then(Copy(0), Then(Op(0x3f), Done))))

  // 0xc93405af7d5432a1465160ee7d0201b7f335f44af433e3ed36615e6d956022bc eq iszero FAIL jumpi
  const CHECKING: Program :=
    Then(Num(32, 0xc93405af7d5432a1465160ee7d0201b7f335f44af433e3ed36615e6d956022bc), Then(Op(0x14),
    Then(Op(0x15), Then(Ref(0), Then(Op(0x57), Done)))))

  // 0x20 calldatasize sub 0x20 0x0 calldatacopy
  const COPYING: Program :=
    Then(Num(1, 0x20), Then(Op(0x36), Then(Op(0x03), Then(Num(1, 0x20), Then(Num(0, 0), Then(Op(0x37),
    Done))))))

  // 0x0 0x0 0x20 calldatasize sub
  const FORWARDING: Program :=
    Then(Num(0, 0), Then(Num(0, 0), Then(Num(1, 0x20), Then(Op(0x36), Then(Op(0x03), Done)))))

  // 0x0 0x0 dup6 gas call
  const CALLING: Program :=
    Then(Num(0, 0), Then(Num(0, 0), Then(Copy(5), Then(Op(0x5a), Then(Op(0xf1), Done)))))

  // FAIL: 0x27e63c44 0x0 mstore
  const FAILING: Program :=
    Then(Label(0), Then(Num(4, 0x27e63c44), Then(Num(0, 0), Then(Op(0x52), Done))))

  // 0x04 0x1c revert
  const REVERTING: Program :=
    Then(Num(1, 0x04), Then(Num(1, 0x1c), Then(Op(0xfd), Done)))

  const LABELS: seq<Word> := [0x4c, 0, 0, 0, 0x4a]

  function CheckPart(rest: seq<Byte>): (code: seq<Byte>) {
    BytesOf(0x5f35803f, 4) + (
    BytesOf(0x7fc93405af7d5432a1465160ee7d0201b7f335f44af433e3ed36615e6d956022bc141561004c57, 39) + (
    BytesOf(0x6020360360205f37, 8) + rest))
  }

  function ForwardPart(rest: seq<Byte>): (code: seq<Byte>) {
    BytesOf(0x5f5f60203603, 6) + (
    BytesOf(0x5f5f855af1, 5) + (
    BytesOf(0x3d5f5f3e, 4) + (
    BytesOf(0x3d5f8261004a57fd, 8) + (
    BytesOf(0x5bf3, 2) + (
    BytesOf(0x5b6327e63c445f52, 8) + (
    BytesOf(0x6004601cfd, 5) + rest))))))
  }

  const ROUTER: seq<Byte> := CheckPart(ForwardPart([]))

  lemma EnterLoading(c: Chart, link: Link, code: seq<Byte>, rest: seq<Byte>)
    requires Charts(c, link, code) && link.labels == LABELS
    requires Lands(After(code), 0, 0) && Holds(code, 0, BytesOf(0x5f35803f, 4) + rest)
    ensures (LOADING, 0) in c.stretches
    ensures Lands(After(code), 0, 4) && Holds(code, 4, rest)
  {
    EnterHex(c, LOADING, 0, 4, 0x5f35803f, rest, link, code);
  }

  lemma EnterChecking(c: Chart, link: Link, code: seq<Byte>, rest: seq<Byte>)
    requires Charts(c, link, code) && link.labels == LABELS
    requires Lands(After(code), 0, 4) && Holds(code, 4, BytesOf(0x7fc93405af7d5432a1465160ee7d0201b7f335f44af433e3ed36615e6d956022bc141561004c57, 39) + rest)
    ensures (CHECKING, 4) in c.stretches
    ensures Lands(After(code), 0, 43) && Holds(code, 43, rest)
  {
    EnterHex(c, CHECKING, 4, 43, 0x7fc93405af7d5432a1465160ee7d0201b7f335f44af433e3ed36615e6d956022bc141561004c57, rest, link, code);
  }

  lemma EnterCopying(c: Chart, link: Link, code: seq<Byte>, rest: seq<Byte>)
    requires Charts(c, link, code) && link.labels == LABELS
    requires Lands(After(code), 0, 43) && Holds(code, 43, BytesOf(0x6020360360205f37, 8) + rest)
    ensures (COPYING, 43) in c.stretches
    ensures Lands(After(code), 0, 51) && Holds(code, 51, rest)
  {
    EnterHex(c, COPYING, 43, 51, 0x6020360360205f37, rest, link, code);
  }

  lemma EnterForwarding(c: Chart, link: Link, code: seq<Byte>, rest: seq<Byte>)
    requires Charts(c, link, code) && link.labels == LABELS
    requires Lands(After(code), 0, 51) && Holds(code, 51, BytesOf(0x5f5f60203603, 6) + rest)
    ensures (FORWARDING, 51) in c.stretches
    ensures Lands(After(code), 0, 57) && Holds(code, 57, rest)
  {
    EnterHex(c, FORWARDING, 51, 57, 0x5f5f60203603, rest, link, code);
  }

  lemma EnterCalling(c: Chart, link: Link, code: seq<Byte>, rest: seq<Byte>)
    requires Charts(c, link, code) && link.labels == LABELS
    requires Lands(After(code), 0, 57) && Holds(code, 57, BytesOf(0x5f5f855af1, 5) + rest)
    ensures (CALLING, 57) in c.stretches
    ensures Lands(After(code), 0, 62) && Holds(code, 62, rest)
  {
    EnterHex(c, CALLING, 57, 62, 0x5f5f855af1, rest, link, code);
  }

  lemma EnterTaking(c: Chart, link: Link, code: seq<Byte>, rest: seq<Byte>)
    requires Charts(c, link, code) && link.labels == LABELS
    requires Lands(After(code), 0, 62) && Holds(code, 62, BytesOf(0x3d5f5f3e, 4) + rest)
    ensures (TAKING, 62) in c.stretches
    ensures Lands(After(code), 0, 66) && Holds(code, 66, rest)
  {
    EnterHex(c, TAKING, 62, 66, 0x3d5f5f3e, rest, link, code);
  }

  lemma EnterAnswering(c: Chart, link: Link, code: seq<Byte>, rest: seq<Byte>)
    requires Charts(c, link, code) && link.labels == LABELS
    requires Lands(After(code), 0, 66) && Holds(code, 66, BytesOf(0x3d5f8261004a57fd, 8) + rest)
    ensures (ANSWERING, 66) in c.stretches
    ensures Lands(After(code), 0, 74) && Holds(code, 74, rest)
  {
    EnterHex(c, ANSWERING, 66, 74, 0x3d5f8261004a57fd, rest, link, code);
  }

  lemma EnterSucceeding(c: Chart, link: Link, code: seq<Byte>, rest: seq<Byte>)
    requires Charts(c, link, code) && link.labels == LABELS
    requires Lands(After(code), 0, 74) && Holds(code, 74, BytesOf(0x5bf3, 2) + rest)
    ensures (SUCCEEDING, 74) in c.stretches && 74 in c.targets
    ensures Lands(After(code), 0, 76) && Holds(code, 76, rest)
  {
    EnterHex(c, SUCCEEDING, 74, 76, 0x5bf3, rest, link, code);
  }

  lemma EnterFailing(c: Chart, link: Link, code: seq<Byte>, rest: seq<Byte>)
    requires Charts(c, link, code) && link.labels == LABELS
    requires Lands(After(code), 0, 76) && Holds(code, 76, BytesOf(0x5b6327e63c445f52, 8) + rest)
    ensures (FAILING, 76) in c.stretches && 76 in c.targets
    ensures Lands(After(code), 0, 84) && Holds(code, 84, rest)
  {
    EnterHex(c, FAILING, 76, 84, 0x5b6327e63c445f52, rest, link, code);
  }

  lemma EnterReverting(c: Chart, link: Link, code: seq<Byte>, rest: seq<Byte>)
    requires Charts(c, link, code) && link.labels == LABELS
    requires Lands(After(code), 0, 84) && Holds(code, 84, BytesOf(0x6004601cfd, 5) + rest)
    ensures (REVERTING, 84) in c.stretches
    ensures Lands(After(code), 0, 89) && Holds(code, 89, rest)
  {
    EnterHex(c, REVERTING, 84, 89, 0x6004601cfd, rest, link, code);
  }

  lemma EnterCheckPart(c: Chart, link: Link, code: seq<Byte>, rest: seq<Byte>)
    requires Charts(c, link, code) && link.labels == LABELS
    requires Lands(After(code), 0, 0) && Holds(code, 0, CheckPart(rest))
    ensures Lands(After(code), 0, 51) && Holds(code, 51, rest)
    ensures (LOADING, 0) in c.stretches
    ensures (CHECKING, 4) in c.stretches
    ensures (COPYING, 43) in c.stretches
  {
    var fromCopying := BytesOf(0x6020360360205f37, 8) + rest;
    var fromChecking := BytesOf(0x7fc93405af7d5432a1465160ee7d0201b7f335f44af433e3ed36615e6d956022bc141561004c57, 39) + fromCopying;
    EnterLoading(c, link, code, fromChecking);
    EnterChecking(c, link, code, fromCopying);
    EnterCopying(c, link, code, rest);
  }

  lemma EnterForwardPart(c: Chart, link: Link, code: seq<Byte>, rest: seq<Byte>)
    requires Charts(c, link, code) && link.labels == LABELS
    requires Lands(After(code), 0, 51) && Holds(code, 51, ForwardPart(rest))
    ensures Lands(After(code), 0, 89) && Holds(code, 89, rest)
    ensures (FORWARDING, 51) in c.stretches
    ensures (CALLING, 57) in c.stretches
    ensures (TAKING, 62) in c.stretches
    ensures (ANSWERING, 66) in c.stretches
    ensures (SUCCEEDING, 74) in c.stretches && 74 in c.targets
    ensures (FAILING, 76) in c.stretches && 76 in c.targets
    ensures (REVERTING, 84) in c.stretches
  {
    var fromReverting := BytesOf(0x6004601cfd, 5) + rest;
    var fromFailing := BytesOf(0x5b6327e63c445f52, 8) + fromReverting;
    var fromSucceeding := BytesOf(0x5bf3, 2) + fromFailing;
    var fromAnswering := BytesOf(0x3d5f8261004a57fd, 8) + fromSucceeding;
    var fromTaking := BytesOf(0x3d5f5f3e, 4) + fromAnswering;
    var fromCalling := BytesOf(0x5f5f855af1, 5) + fromTaking;
    EnterForwarding(c, link, code, fromCalling);
    EnterCalling(c, link, code, fromTaking);
    EnterTaking(c, link, code, fromAnswering);
    EnterAnswering(c, link, code, fromSucceeding);
    EnterSucceeding(c, link, code, fromFailing);
    EnterFailing(c, link, code, fromReverting);
    EnterReverting(c, link, code, rest);
  }

  /** Every stretch is in its place and every label is a valid jump target. */
  ghost predicate Ready(c: Chart, link: Link, code: seq<Byte>) {
    && Charts(c, link, code) && link.labels == LABELS
    && 0x4c in c.targets && 0x4a in c.targets
    && (LOADING, 0) in c.stretches && (CHECKING, 4) in c.stretches
    && (COPYING, 43) in c.stretches && (FORWARDING, 51) in c.stretches
    && (TAKING, 62) in c.stretches && (ANSWERING, 66) in c.stretches
    && (SUCCEEDING, 74) in c.stretches && (FAILING, 76) in c.stretches
    && (CALLING, 57) in c.stretches
    && (REVERTING, 84) in c.stretches
  }

  /** The bytes are the assembled Huff program, and its labels are valid jump targets. */
  lemma RouterLoads() returns (c: Chart)
    ensures Ready(c, Link(LABELS, []), ROUTER)
  {
    var link, code := Link(LABELS, []), ROUTER;
    c := DrawChart(link, code);
    var forward := ForwardPart([]);
    EnterCheckPart(c, link, code, forward);
    EnterForwardPart(c, link, code, []);
  }
}

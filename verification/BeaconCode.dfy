/** The metamorphic beacon proxy that every account lives behind, as the bytes the factory deploys. */
module BeaconCode {
  import opened Words
  import opened Evm
  import opened Huff
  import opened Relay

  // Labels: 0 the migrate route, 1 the route through the proxy's own slot, 2 where both delegate,
  // 4 SUCCESS.

  // 0x0 calldataload 0xe0 shr 0x8fd3ab80 eq
  const ROUTING: Program :=
    Then(Num(0, 0), Then(Op(0x35), Then(Num(1, 0xe0), Then(Op(0x1c), Then(Num(4, 0x8fd3ab80), Then(Op(0x14),
    Done))))))

  // MIGRATING jumpi OWN_SLOT jump
  const TURNING: Program :=
    Then(Ref(0), Then(Op(0x57), Then(Ref(1), Then(Op(0x56), Done))))

  // MIGRATING: 0x20 0x0 0x0 0x0
  const ASKING: Program :=
    Then(Label(0), Then(Num(1, 0x20), Then(Num(0, 0), Then(Num(0, 0), Then(Num(0, 0), Done)))))

  // factory
  const FACTORY: Program :=
    Then(Hole(20, 0), Done)

  // gas staticcall
  const CONSULTING: Program :=
    Then(Op(0x5a), Then(Op(0xfa), Done))

  // 0x0 mload DELEGATE jump
  const READING: Program :=
    Then(Num(0, 0), Then(Op(0x51), Then(Ref(2), Then(Op(0x56), Done))))

  // OWN_SLOT: 0x360894a13ba1a3210667c828492db98dca3e2076cc3735a920a3ca505d382bbc sload
  const LOOKING: Program :=
    Then(Label(1), Then(Num(32, 0x360894a13ba1a3210667c828492db98dca3e2076cc3735a920a3ca505d382bbc),
    Then(Op(0x54), Done)))

  // DELEGATE: calldatasize 0x0 0x0 calldatacopy
  const COPYING: Program :=
    Then(Label(2), Then(Op(0x36), Then(Num(0, 0), Then(Num(0, 0), Then(Op(0x37), Done)))))

  // 0x0 calldatasize 0x0 0x0
  const DELEGATING: Program :=
    Then(Num(0, 0), Then(Op(0x36), Then(Num(0, 0), Then(Num(0, 0), Done))))

  // swap4 gas delegatecall
  const PASSING: Program :=
    Then(Op(0x93), Then(Op(0x5a), Then(Op(0xf4), Done)))

  const LABELS: seq<Word> := [0x13, 0x36, 0x59, 0, 0x71]

  function RoutePart(factory: Address, rest: seq<Byte>): (code: seq<Byte>) {
    BytesOf(0x5f3560e01c638fd3ab8014, 11) + (
    BytesOf(0x6100135761003656, 8) + (
    BytesOf(0x5b60205f5f5f, 6) + (
    BytesOf(0x73 * ADDRESS_LIMIT + factory, 21) + (
    BytesOf(0x5afa, 2) + (
    BytesOf(0x5f5161005956, 6) + (
    BytesOf(0x5b7f360894a13ba1a3210667c828492db98dca3e2076cc3735a920a3ca505d382bbc54, 35) + rest))))))
  }

  function DelegatePart(rest: seq<Byte>): (code: seq<Byte>) {
    BytesOf(0x5b365f5f37, 5) + (
    BytesOf(0x5f365f5f, 4) + (
    BytesOf(0x935af4, 3) + (
    BytesOf(0x3d5f5f3e, 4) + (
    BytesOf(0x3d5f8261007157fd, 8) + (
    BytesOf(0x5bf3, 2) + rest)))))
  }

  /** The proxy code for `factory`. */
  function Beacon(factory: Address): (code: seq<Byte>) {
    RoutePart(factory, DelegatePart([]))
  }

  lemma EnterRouting(c: Chart, link: Link, code: seq<Byte>, rest: seq<Byte>)
    requires Charts(c, link, code) && link.labels == LABELS
    requires Lands(After(code), 0, 0) && Holds(code, 0, BytesOf(0x5f3560e01c638fd3ab8014, 11) + rest)
    ensures (ROUTING, 0) in c.stretches
    ensures Lands(After(code), 0, 11) && Holds(code, 11, rest)
  {
    EnterHex(c, ROUTING, 0, 11, 0x5f3560e01c638fd3ab8014, rest, link, code);
  }

  lemma EnterTurning(c: Chart, link: Link, code: seq<Byte>, rest: seq<Byte>)
    requires Charts(c, link, code) && link.labels == LABELS
    requires Lands(After(code), 0, 11) && Holds(code, 11, BytesOf(0x6100135761003656, 8) + rest)
    ensures (TURNING, 11) in c.stretches
    ensures Lands(After(code), 0, 19) && Holds(code, 19, rest)
  {
    EnterHex(c, TURNING, 11, 19, 0x6100135761003656, rest, link, code);
  }

  lemma EnterAsking(c: Chart, link: Link, code: seq<Byte>, rest: seq<Byte>)
    requires Charts(c, link, code) && link.labels == LABELS
    requires Lands(After(code), 0, 19) && Holds(code, 19, BytesOf(0x5b60205f5f5f, 6) + rest)
    ensures (ASKING, 19) in c.stretches && 19 in c.targets
    ensures Lands(After(code), 0, 25) && Holds(code, 25, rest)
  {
    EnterHex(c, ASKING, 19, 25, 0x5b60205f5f5f, rest, link, code);
  }

  lemma EnterFactory(c: Chart, link: Link, code: seq<Byte>, rest: seq<Byte>, factory: Address)
    requires Charts(c, link, code) && link.labels == LABELS && At(link.args, 0) == factory
    requires Lands(After(code), 0, 25) && Holds(code, 25, BytesOf(0x73 * ADDRESS_LIMIT + factory, 21) + rest)
    ensures (FACTORY, 25) in c.stretches
    ensures Lands(After(code), 0, 46) && Holds(code, 46, rest)
  {
    EnterHex(c, FACTORY, 25, 46, 0x73 * ADDRESS_LIMIT + factory, rest, link, code);
  }

  lemma EnterConsulting(c: Chart, link: Link, code: seq<Byte>, rest: seq<Byte>)
    requires Charts(c, link, code) && link.labels == LABELS
    requires Lands(After(code), 0, 46) && Holds(code, 46, BytesOf(0x5afa, 2) + rest)
    ensures (CONSULTING, 46) in c.stretches
    ensures Lands(After(code), 0, 48) && Holds(code, 48, rest)
  {
    EnterHex(c, CONSULTING, 46, 48, 0x5afa, rest, link, code);
  }

  lemma EnterReading(c: Chart, link: Link, code: seq<Byte>, rest: seq<Byte>)
    requires Charts(c, link, code) && link.labels == LABELS
    requires Lands(After(code), 0, 48) && Holds(code, 48, BytesOf(0x5f5161005956, 6) + rest)
    ensures (READING, 48) in c.stretches
    ensures Lands(After(code), 0, 54) && Holds(code, 54, rest)
  {
    EnterHex(c, READING, 48, 54, 0x5f5161005956, rest, link, code);
  }

  lemma EnterLooking(c: Chart, link: Link, code: seq<Byte>, rest: seq<Byte>)
    requires Charts(c, link, code) && link.labels == LABELS
    requires Lands(After(code), 0, 54) && Holds(code, 54, BytesOf(0x5b7f360894a13ba1a3210667c828492db98dca3e2076cc3735a920a3ca505d382bbc54, 35) + rest)
    ensures (LOOKING, 54) in c.stretches && 54 in c.targets
    ensures Lands(After(code), 0, 89) && Holds(code, 89, rest)
  {
    EnterHex(c, LOOKING, 54, 89, 0x5b7f360894a13ba1a3210667c828492db98dca3e2076cc3735a920a3ca505d382bbc54, rest, link, code);
  }

  lemma EnterCopying(c: Chart, link: Link, code: seq<Byte>, rest: seq<Byte>)
    requires Charts(c, link, code) && link.labels == LABELS
    requires Lands(After(code), 0, 89) && Holds(code, 89, BytesOf(0x5b365f5f37, 5) + rest)
    ensures (COPYING, 89) in c.stretches && 89 in c.targets
    ensures Lands(After(code), 0, 94) && Holds(code, 94, rest)
  {
    EnterHex(c, COPYING, 89, 94, 0x5b365f5f37, rest, link, code);
  }

  lemma EnterDelegating(c: Chart, link: Link, code: seq<Byte>, rest: seq<Byte>)
    requires Charts(c, link, code) && link.labels == LABELS
    requires Lands(After(code), 0, 94) && Holds(code, 94, BytesOf(0x5f365f5f, 4) + rest)
    ensures (DELEGATING, 94) in c.stretches
    ensures Lands(After(code), 0, 98) && Holds(code, 98, rest)
  {
    EnterHex(c, DELEGATING, 94, 98, 0x5f365f5f, rest, link, code);
  }

  lemma EnterPassing(c: Chart, link: Link, code: seq<Byte>, rest: seq<Byte>)
    requires Charts(c, link, code) && link.labels == LABELS
    requires Lands(After(code), 0, 98) && Holds(code, 98, BytesOf(0x935af4, 3) + rest)
    ensures (PASSING, 98) in c.stretches
    ensures Lands(After(code), 0, 101) && Holds(code, 101, rest)
  {
    EnterHex(c, PASSING, 98, 101, 0x935af4, rest, link, code);
  }

  lemma EnterTaking(c: Chart, link: Link, code: seq<Byte>, rest: seq<Byte>)
    requires Charts(c, link, code) && link.labels == LABELS
    requires Lands(After(code), 0, 101) && Holds(code, 101, BytesOf(0x3d5f5f3e, 4) + rest)
    ensures (TAKING, 101) in c.stretches
    ensures Lands(After(code), 0, 105) && Holds(code, 105, rest)
  {
    EnterHex(c, TAKING, 101, 105, 0x3d5f5f3e, rest, link, code);
  }

  lemma EnterAnswering(c: Chart, link: Link, code: seq<Byte>, rest: seq<Byte>)
    requires Charts(c, link, code) && link.labels == LABELS
    requires Lands(After(code), 0, 105) && Holds(code, 105, BytesOf(0x3d5f8261007157fd, 8) + rest)
    ensures (ANSWERING, 105) in c.stretches
    ensures Lands(After(code), 0, 113) && Holds(code, 113, rest)
  {
    EnterHex(c, ANSWERING, 105, 113, 0x3d5f8261007157fd, rest, link, code);
  }

  lemma EnterSucceeding(c: Chart, link: Link, code: seq<Byte>, rest: seq<Byte>)
    requires Charts(c, link, code) && link.labels == LABELS
    requires Lands(After(code), 0, 113) && Holds(code, 113, BytesOf(0x5bf3, 2) + rest)
    ensures (SUCCEEDING, 113) in c.stretches && 113 in c.targets
    ensures Lands(After(code), 0, 115) && Holds(code, 115, rest)
  {
    EnterHex(c, SUCCEEDING, 113, 115, 0x5bf3, rest, link, code);
  }

  lemma EnterRoutePart(c: Chart, link: Link, code: seq<Byte>, factory: Address, rest: seq<Byte>)
    requires Charts(c, link, code) && link.labels == LABELS && At(link.args, 0) == factory
    requires Lands(After(code), 0, 0) && Holds(code, 0, RoutePart(factory, rest))
    ensures Lands(After(code), 0, 89) && Holds(code, 89, rest)
    ensures (ROUTING, 0) in c.stretches
    ensures (TURNING, 11) in c.stretches
    ensures (ASKING, 19) in c.stretches && 19 in c.targets
    ensures (FACTORY, 25) in c.stretches
    ensures (CONSULTING, 46) in c.stretches
    ensures (READING, 48) in c.stretches
    ensures (LOOKING, 54) in c.stretches && 54 in c.targets
  {
    var fromLooking := BytesOf(0x5b7f360894a13ba1a3210667c828492db98dca3e2076cc3735a920a3ca505d382bbc54, 35) + rest;
    var fromReading := BytesOf(0x5f5161005956, 6) + fromLooking;
    var fromConsulting := BytesOf(0x5afa, 2) + fromReading;
    var fromFactory := BytesOf(0x73 * ADDRESS_LIMIT + factory, 21) + fromConsulting;
    var fromAsking := BytesOf(0x5b60205f5f5f, 6) + fromFactory;
    var fromTurning := BytesOf(0x6100135761003656, 8) + fromAsking;
    EnterRouting(c, link, code, fromTurning);
    EnterTurning(c, link, code, fromAsking);
    EnterAsking(c, link, code, fromFactory);
    EnterFactory(c, link, code, fromConsulting, factory);
    EnterConsulting(c, link, code, fromReading);
    EnterReading(c, link, code, fromLooking);
    EnterLooking(c, link, code, rest);
  }

  lemma EnterDelegatePart(c: Chart, link: Link, code: seq<Byte>, rest: seq<Byte>)
    requires Charts(c, link, code) && link.labels == LABELS
    requires Lands(After(code), 0, 89) && Holds(code, 89, DelegatePart(rest))
    ensures Lands(After(code), 0, 115) && Holds(code, 115, rest)
    ensures (COPYING, 89) in c.stretches && 89 in c.targets
    ensures (DELEGATING, 94) in c.stretches
    ensures (PASSING, 98) in c.stretches
    ensures (TAKING, 101) in c.stretches
    ensures (ANSWERING, 105) in c.stretches
    ensures (SUCCEEDING, 113) in c.stretches && 113 in c.targets
  {
    var fromSucceeding := BytesOf(0x5bf3, 2) + rest;
    var fromAnswering := BytesOf(0x3d5f8261007157fd, 8) + fromSucceeding;
    var fromTaking := BytesOf(0x3d5f5f3e, 4) + fromAnswering;
    var fromPassing := BytesOf(0x935af4, 3) + fromTaking;
    var fromDelegating := BytesOf(0x5f365f5f, 4) + fromPassing;
    EnterCopying(c, link, code, fromDelegating);
    EnterDelegating(c, link, code, fromPassing);
    EnterPassing(c, link, code, fromTaking);
    EnterTaking(c, link, code, fromAnswering);
    EnterAnswering(c, link, code, fromSucceeding);
    EnterSucceeding(c, link, code, rest);
  }

  /** Every stretch is in its place and every label is a valid jump target. */
  ghost predicate Ready(c: Chart, link: Link, code: seq<Byte>) {
    && Charts(c, link, code) && link.labels == LABELS
    && 0x13 in c.targets && 0x36 in c.targets && 0x59 in c.targets && 0x71 in c.targets
    && (ROUTING, 0) in c.stretches && (ASKING, 19) in c.stretches
    && (FACTORY, 25) in c.stretches && (CONSULTING, 46) in c.stretches
    && (READING, 48) in c.stretches && (LOOKING, 54) in c.stretches
    && (COPYING, 89) in c.stretches && (DELEGATING, 94) in c.stretches
    && (TAKING, 101) in c.stretches && (ANSWERING, 105) in c.stretches
    && (SUCCEEDING, 113) in c.stretches
    && (TURNING, 11) in c.stretches
    && (PASSING, 98) in c.stretches
  }

  /** The bytes are these instructions, and all of their labels are valid jump targets. */
  lemma BeaconLoads(factory: Address) returns (c: Chart)
    ensures Ready(c, Link(LABELS, [factory]), Beacon(factory))
  {
    var link, code := Link(LABELS, [factory]), Beacon(factory);
    c := DrawChart(link, code);
    var delegate := DelegatePart([]);
    EnterRoutePart(c, link, code, factory, delegate);
    EnterDelegatePart(c, link, code, []);
  }
}

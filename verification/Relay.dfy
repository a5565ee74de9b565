/** The end that all the hand-written programs share: hand back what the callee returned, as success
    or as failure. */
module Relay {
  import opened Words
  import opened Evm
  import opened Huff

  // returndatasize 0x0 0x0 returndatacopy
  const TAKING: Program :=
    Then(Op(0x3d), Then(Num(0, 0), Then(Num(0, 0), Then(Op(0x3e), Done))))

  // returndatasize 0x0 dup3 SUCCESS jumpi revert
  const ANSWERING: Program :=
    Then(Op(0x3d), Then(Num(0, 0), Then(Copy(2), Then(Ref(4), Then(Op(0x57), Then(Op(0xfd), Done))))))

  // SUCCESS: return
  const SUCCEEDING: Program :=
    Then(Label(4), Then(Op(0xf3), Done))

  /** A stretch that the chart of the code places at `at`. */
  ghost predicate Sited(p: Program, at: nat, c: Chart, link: Link, code: seq<Byte>) {
    Charts(c, link, code) && (p, at) in c.stretches
  }

  lemma ReadBack(m: Memory, data: seq<Byte>)
    ensures Read(Wrote(m, 0, data), 0, |data|) == data
  {
    var r := Read(Wrote(m, 0, data), 0, |data|);
    forall i | 0 <= i < |data| ensures r[i] == data[i] {
      assert r[i] == ByteAt(Wrote(m, 0, data), 0 + i);
      ByteWritten(m, 0, data, i);
    }
  }

  lemma RunTaking(c: Chart, link: Link, code: seq<Byte>, env: Env, s: State)
    requires Sited(TAKING, s.pc, c, link, code)
    ensures Final(code, env, s) == Final(code, env, s.(pc := s.pc + 4, mem := Wrote(s.mem, 0, s.ret)))
  {
    assert s.ret[0..0 + |s.ret|] == s.ret;
    RunPlaced(c, TAKING, link, code, env, s);
  }

  lemma RunAnswering(c: Chart, link: Link, code: seq<Byte>, env: Env, s: State)
    requires Sited(ANSWERING, s.pc, c, link, code) && s.stack.On?
    requires At(link.labels, 4) in c.targets && At(link.labels, 4) != s.pc + 7
    ensures Final(code, env, s) ==
            if s.stack.top == 0 then Some(Reverted(Read(s.mem, 0, |s.ret|), s.calls))
            else Final(code, env, s.(pc := At(link.labels, 4), stack := On(0, On(|s.ret|, s.stack))))
  {
    RunPlaced(c, ANSWERING, link, code, env, s);
  }

  lemma RunSucceeding(c: Chart, link: Link, code: seq<Byte>, env: Env, s: State, n: Word, b: Stack)
    requires Sited(SUCCEEDING, s.pc, c, link, code) && s.stack == On(0, On(n, b)) && n < DATA_LIMIT
    ensures Final(code, env, s) == Some(Returned(Read(s.mem, 0, n), s.store, s.calls))
  {
    RunPlaced(c, SUCCEEDING, link, code, env, s);
  }

  /** Success and return data of the last call become those of the program. */
  lemma RunRelay(c: Chart, link: Link, code: seq<Byte>, env: Env, s: State)
    requires Sited(TAKING, s.pc, c, link, code) && Sited(ANSWERING, s.pc + 4, c, link, code)
    requires Sited(SUCCEEDING, At(link.labels, 4), c, link, code)
    requires At(link.labels, 4) in c.targets && At(link.labels, 4) != s.pc + 11 && s.stack.On?
    ensures Final(code, env, s) == Some(if s.stack.top == 0 then Reverted(s.ret, s.calls) else Returned(s.ret, s.store, s.calls))
  {
    RunTaking(c, link, code, env, s);
    var t := s.(pc := s.pc + 4, mem := Wrote(s.mem, 0, s.ret));
    ReadBack(s.mem, s.ret);
    RunAnswering(c, link, code, env, t);
    if s.stack.top != 0 {
      RunSucceeding(c, link, code, env, t.(pc := At(link.labels, 4), stack := On(0, On(|s.ret|, s.stack))), |s.ret|, s.stack);
    }
  }
}

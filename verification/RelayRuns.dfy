/** Building executions of the relay, one action at a time. */
module RelayRuns {
  import opened Sequences
  import opened PacketTypes
  import opened RelayMachine

  /** One more action at the end of a run. */
  lemma Extend(c: Config, run: seq<Action>, s: State, a: Action) returns (run': seq<Action>, s': State)
    requires Execute(c, INITIAL, run) == Some(s) && Step(c, s, a).Some?
    ensures Execute(c, INITIAL, run') == Some(s') && Some(s') == Step(c, s, a)
  {
    run', s' := run + [a], Step(c, s, a).value;
    ExecuteSnoc(c, INITIAL, run, a);
  }

  function CommandsAt(phase: Phase): CommandSide {
    INITIAL.command.(
      socket := if phase.Starting? && phase.stage < 2 then RepClosed else AwaitRequest,
      thread := if phase.Starting? && phase.stage < 6 then CmdOff else CmdTop)
  }

  /** The state after an `Initialize` of a new object in which nothing fails and no other thread acts. */
  lemma StartedRelay(c: Config) returns (run: seq<Action>, s: State)
    ensures Execute(c, INITIAL, run) == Some(s)
    ensures s.control.running && s.control.pubSocket == c.streaming
    ensures s.callers == INITIAL.callers && s.publish.pushed == []
    ensures s.reliable.offers == [] && s.reliable.queue == []
    ensures c.commands ==> s.command == INITIAL.command.(thread := CmdTop, socket := AwaitRequest)
  {
    run, s := Extend(c, [], INITIAL, Initialize(Succeeds));
    while s.control.phase != Returned(true)
      invariant Execute(c, INITIAL, run) == Some(s)
      invariant s.control.phase == Returned(true) || (s.control.phase.Starting? && s.control.phase.stage <= 6)
      invariant s.control.phase.Returned? || s.control.phase.stage >= 4 ==> s.control.running
      invariant s.control.phase.Returned? || s.control.phase.stage >= 1 ==> s.control.pubSocket == c.streaming
      invariant s.control.phase == Starting(0) ==> !s.control.pubSocket
      invariant s.callers == INITIAL.callers && s.publish.pushed == []
      invariant s.reliable.offers == [] && s.reliable.queue == []
      invariant c.commands ==> s.command == CommandsAt(s.control.phase)
      decreases if s.control.phase.Starting? then 7 - s.control.phase.stage else 0
    {
      run, s := Extend(c, run, s, Initialize(Succeeds));
    }
  }

  /** A call up to the point where the filter has accepted its packet. */
  lemma CallPasses(c: Config, run: seq<Action>, s: State, t: ThreadId, p: PacketInfo)
    returns (run': seq<Action>, s': State)
    requires Execute(c, INITIAL, run) == Some(s)
    requires s.control.running && s.control.pubSocket && t !in s.callers.calls && c.filter(p)
    ensures Execute(c, INITIAL, run') == Some(s')
    ensures s'.callers.calls == s.callers.calls[t := Passed(p)]
    ensures s'.control == s.control && s'.publish == s.publish && s'.reliable == s.reliable
  {
    run', s' := Extend(c, run, s, Begin(t, p));
    run', s' := Extend(c, run', s', Continue(t));
    run', s' := Extend(c, run', s', Continue(t));
  }
}

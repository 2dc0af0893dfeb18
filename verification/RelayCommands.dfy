/** src/zmq_relay.cpp:241-266: the command interface over every execution, and when it stops answering. */
module RelayCommands {
  import opened Sequences
  import opened RelayMachine
  import opened RelayInvariants
  import opened RelayLifecycle
  import opened RelayRuns

  /** The k-th reply answers the k-th request, and at most one request is unanswered. */
  lemma CommandsInLockStep(c: Config, s: State)
    requires Reachable(c, s)
    ensures 0 <= |s.command.requests| - |s.command.replies| <= 1
    ensures |s.command.replies| <= |s.command.ticks|
    ensures forall k :: 0 <= k < |s.command.replies| ==>
              s.command.replies[k] == c.respond(s.command.ticks[k], s.command.requests[k])
    ensures s.command.commandsProcessed + (if s.command.thread == CmdCounting then 1 else 0) == s.command.returned
  {
    ReachableInvariant(c, s);
  }

  // ---------------------------------------------------------------------------------------------
  // Lost replies, as steps of a run

  /** The step loses a reply: the send throws, or returns without having sent. */
  predicate LosesReply(s: State, a: Action) {
    a.Serve? && s.command.thread.CmdReplying? && a.event.sent != Delivered
  }

  /** The step opens the REP socket. */
  predicate OpensSocket(c: Config, s: State, a: Action) {
    a.Initialize? && s.control.phase == Starting(1) && c.commands
  }

  predicate LosesReplyAt(c: Config, run: seq<Action>, i: nat)
    requires i < |run|
  {
    var s := Execute(c, INITIAL, run[..i]);
    s.Some? && LosesReply(s.value, run[i])
  }

  predicate OpensSocketAt(c: Config, run: seq<Action>, i: nat)
    requires i < |run|
  {
    var s := Execute(c, INITIAL, run[..i]);
    s.Some? && OpensSocket(c, s.value, run[i])
  }

  /** Some step of the run loses a reply, and the socket is not opened again after it. */
  predicate ReplyLost(c: Config, run: seq<Action>) {
    exists i :: 0 <= i < |run| && LosesReplyAt(c, run, i)
                && forall j :: i < j < |run| ==> !OpensSocketAt(c, run, j)
  }

  lemma ReplyLostByLastStep(c: Config, run: seq<Action>, s: State)
    requires run != [] && Execute(c, INITIAL, Front(run)) == Some(s)
    ensures ReplyLost(c, run) <==>
      LosesReply(s, Last(run)) || (ReplyLost(c, Front(run)) && !OpensSocket(c, s, Last(run)))
  {
    var n := |run| - 1;
    assert run[..n] == Front(run);
    assert LosesReplyAt(c, run, n) == LosesReply(s, Last(run));
    assert OpensSocketAt(c, run, n) == OpensSocket(c, s, Last(run));
    if ReplyLost(c, Front(run)) && !OpensSocket(c, s, Last(run)) {
      ReplyStaysLost(c, run);
    }
    if ReplyLost(c, run) && !LosesReply(s, Last(run)) {
      ReplyWasLost(c, run);
    }
  }

  lemma SameBefore(c: Config, run: seq<Action>, i: nat)
    requires i + 1 < |run|
    ensures LosesReplyAt(c, run, i) == LosesReplyAt(c, Front(run), i)
    ensures OpensSocketAt(c, run, i) == OpensSocketAt(c, Front(run), i)
  {
    assert run[..i] == Front(run)[..i];
  }

  lemma ReplyStaysLost(c: Config, run: seq<Action>)
    requires run != [] && ReplyLost(c, Front(run)) && !OpensSocketAt(c, run, |run| - 1)
    ensures ReplyLost(c, run)
  {
    var n := |run| - 1;
    var i :| 0 <= i < n && LosesReplyAt(c, Front(run), i)
             && forall j :: i < j < n ==> !OpensSocketAt(c, Front(run), j);
    SameBefore(c, run, i);
    forall j | i < j < |run| ensures !OpensSocketAt(c, run, j) {
      if j < n {
        SameBefore(c, run, j);
      }
    }
  }

  lemma ReplyWasLost(c: Config, run: seq<Action>)
    requires run != [] && ReplyLost(c, run) && !LosesReplyAt(c, run, |run| - 1)
    ensures ReplyLost(c, Front(run)) && !OpensSocketAt(c, run, |run| - 1)
  {
    var n := |run| - 1;
    var i :| 0 <= i < |run| && LosesReplyAt(c, run, i) && forall j :: i < j < |run| ==> !OpensSocketAt(c, run, j);
    SameBefore(c, run, i);
    forall j | i < j < n ensures !OpensSocketAt(c, Front(run), j) {
      SameBefore(c, run, j);
    }
  }

  // ---------------------------------------------------------------------------------------------
  // What a lost reply does to the socket

  /** The thread has a request that it has not tried to answer yet. */
  predicate Serving(thread: Commander) {
    thread.CmdGot? || thread.CmdReplying?
  }

  /** The thread is between commands, but its socket still owes a reply. */
  predicate Wedged(m: CommandSide) {
    m.socket == AwaitReply && !Serving(m.thread)
  }

  /** How socket, thread and histories show that a reply has been lost, or that none has. */
  predicate Shows(m: CommandSide, lost: bool) {
    && (m.socket == AwaitRequest ==> !lost)
    && (m.socket == AwaitReply ==> (lost <==> !Serving(m.thread)))
    && (!Serving(m.thread) ==> (lost <==> |m.requests| != |m.replies|))
  }

  lemma StepKeepsShowing(c: Config, s: State, a: Action, s': State, lost: bool)
    requires Invariant(c, s) && Step(c, s, a) == Some(s') && Shows(s.command, lost)
    ensures Shows(s'.command, LosesReply(s, a) || (lost && !OpensSocket(c, s, a)))
  {
    match a
    case Serve(e) => CommanderKeepsLockStep(c, s.command, s.control.running, e, s'.command);
    case Initialize(e) => InitializeTouches(c, s, e, s');
    case _ =>
  }

  lemma {:induction false} RunShowsLostReplies(c: Config, run: seq<Action>, s: State)
    requires Execute(c, INITIAL, run) == Some(s)
    ensures Shows(s.command, ReplyLost(c, run))
    decreases |run|
  {
    if run != [] {
      var before := Execute(c, INITIAL, Front(run)).value;
      RunShowsLostReplies(c, Front(run), before);
      ReachableInvariant(c, before);
      StepKeepsShowing(c, before, Last(run), s, ReplyLost(c, Front(run)));
      ReplyLostByLastStep(c, run, before);
    }
  }

  /**
    In every run the command interface is wedged exactly when a reply has been lost since its socket was
    opened; between commands a client can tell, for then and only then one request has no reply.
   */
  lemma WedgedIffReplyLost(c: Config, run: seq<Action>, s: State)
    requires Execute(c, INITIAL, run) == Some(s)
    ensures Wedged(s.command) <==> s.command.socket != RepClosed && ReplyLost(c, run)
    ensures !Serving(s.command.thread) ==> (|s.command.requests| == |s.command.replies| <==> !ReplyLost(c, run))
  {
    RunShowsLostReplies(c, run, s);
  }

  /** The next request is received exactly when no reply has been lost since the socket was opened. */
  lemma ServedIffNoReplyLost(c: Config, run: seq<Action>, s: State, e: CommandEvent)
    requires Execute(c, INITIAL, run) == Some(s) && s.command.thread == CmdReceiving && e.request.Some?
    ensures Step(c, s, Serve(e)).value.command.requests == s.command.requests + [e.request.value]
       <==> !ReplyLost(c, run)
  {
    RunShowsLostReplies(c, run, s);
    ReachableInvariant(c, s);
  }

  /** Wedged, or closed since: no state in which a request could be received. */
  predicate DialogueOver(m: CommandSide) {
    Wedged(m) || (m.socket == RepClosed && m.thread == CmdOff)
  }

  lemma DialogueStaysOver(c: Config, s: State, a: Action, s': State)
    requires Lives(c, s) && DialogueOver(s.command) && !a.Initialize? && Step(c, s, a) == Some(s')
    ensures DialogueOver(s'.command)
    ensures s'.command.requests == s.command.requests && s'.command.replies == s.command.replies
  {
  }

  lemma {:induction false} OverMeansOver(c: Config, s: State, run: seq<Action>)
    requires Invariant(c, s) && DialogueOver(s.command) && NoInitialize(run) && Execute(c, s, run).Some?
    ensures DialogueOver(Execute(c, s, run).value.command)
    ensures Execute(c, s, run).value.command.requests == s.command.requests
    ensures Execute(c, s, run).value.command.replies == s.command.replies
    decreases |run|
  {
    if run != [] {
      assert NoInitialize(Front(run));
      OverMeansOver(c, s, Front(run));
      InvariantAlongRun(c, s, Front(run));
      DialogueStaysOver(c, Execute(c, s, Front(run)).value, Last(run), Execute(c, s, run).value);
    }
  }

  /**
    The step that loses a reply ends the dialogue: whatever happens after it, nothing is received or
    replied any more before the next `Initialize`.
   */
  lemma LostReplyEndsTheDialogue(c: Config, s: State, a: Action, s': State, run: seq<Action>)
    requires Reachable(c, s) && LosesReply(s, a) && Step(c, s, a) == Some(s')
    requires NoInitialize(run) && Execute(c, s', run).Some?
    ensures Execute(c, s', run).value.command.requests == s.command.requests
    ensures Execute(c, s', run).value.command.replies == s.command.replies
    ensures |s.command.requests| == |s.command.replies| + 1
  {
    ReachableInvariant(c, s);
    InvariantKept(c, s, a, s');
    OverMeansOver(c, s', run);
  }

  /** Losing a reply takes no more than the command interface, one request, and a send that does not deliver. */
  lemma OneLostReplyWedges(c: Config, text: string, sent: SendResult)
    requires c.commands && sent != Delivered
    ensures exists s :: Reachable(c, s) && Wedged(s.command) && s.control.running && s.command.requests == [text]
                        && s.command.replies == [] && s.command.commandsProcessed == if sent == Threw then 0 else 1
  {
    var e := CommandEvent(Some(text), 0, sent);
    var run, s := StartedRelay(c);
    run, s := Extend(c, run, s, Serve(e));
    run, s := Extend(c, run, s, Serve(e));
    run, s := Extend(c, run, s, Serve(e));
    run, s := Extend(c, run, s, Serve(e));
    if sent == WouldBlock {
      run, s := Extend(c, run, s, Serve(e));
    }
    assert s.command.requests == [text] && Wedged(s.command);
  }
}

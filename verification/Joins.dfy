/** How many own steps of the workers a schedule of `Shutdown` must hold for the joins to succeed. */
module Joins {
  import opened Sequences
  import opened RelayMachine
  import opened RelayLifecycle
  import opened Schedules

  predicate IsWorker(who: Who) {
    who == ThePublisher || who == ThePusher || who == TheCommander
  }

  /** The own steps a worker is at most away from its exit, once `running_` is false. */
  function Rank(worker: Who, s: State): nat
    requires IsWorker(worker)
  {
    if worker == ThePublisher then PublisherRank(s.publish.thread)
    else if worker == ThePusher then PusherRank(s.reliable.thread)
    else CommanderRank(s.command.thread)
  }

  function MaxRank(worker: Who): nat
    requires IsWorker(worker)
  {
    if worker == ThePusher then 3 else 5
  }

  /** The steps of a worker among these actions. */
  function StepsIn(worker: Who, actions: seq<Action>): nat {
    if actions == [] then 0 else StepsIn(worker, Front(actions)) + if Acts(worker, Last(actions)) then 1 else 0
  }

  /** The steps scheduled for a worker in the turns before number `k`, except the first, which clears `running_`. */
  function Scheduled(worker: Who, turns: seq<Turn>, k: nat): nat {
    if k <= 1 then 0 else Scheduled(worker, turns, k - 1) + StepsIn(worker, TurnAt(turns, k - 1).others)
  }

  /** Of `rank` steps to the exit at most, `steps` have been scheduled, and so many are left. */
  predicate Spent(rank: nat, steps: nat, left: nat) {
    left == 0 || left + steps <= rank
  }

  lemma OtherSpends(c: Config, s: State, worker: Who, a: Action)
    requires IsWorker(worker) && !s.control.running
    ensures var s' := Other(c, s, TheController(true), a);
            && !s'.control.running
            && Spent(Rank(worker, s), if Acts(worker, a) then 1 else 0, Rank(worker, s'))
            && Rank(worker, s') <= Rank(worker, s)
  {
    if !Acts(TheController(true), a) && Step(c, s, a).Some? {
      RanksFall(c, s, a, Step(c, s, a).value);
    }
  }

  lemma {:induction false} OthersSpend(c: Config, s: State, worker: Who, actions: seq<Action>)
    requires IsWorker(worker) && !s.control.running
    ensures var s' := Others(c, s, TheController(true), actions);
            !s'.control.running && Spent(Rank(worker, s), StepsIn(worker, actions), Rank(worker, s'))
    decreases |actions|
  {
    if actions != [] {
      OthersSpend(c, s, worker, Front(actions));
      OtherSpends(c, Others(c, s, TheController(true), Front(actions)), worker, Last(actions));
    }
  }

  lemma TurnSpends(c: Config, s: State, worker: Who, turn: Turn)
    requires IsWorker(worker) && !s.control.running
    ensures var s' := Turned(c, s, TheController(true), turn);
            !s'.control.running && Spent(Rank(worker, s), StepsIn(worker, turn.others), Rank(worker, s'))
  {
    OthersSpend(c, s, worker, turn.others);
    var seen := Others(c, s, TheController(true), turn.others);
    if Step(c, seen, Shutdown).Some? {
      RanksFall(c, seen, Shutdown, Step(c, seen, Shutdown).value);
    }
  }

  lemma {:induction false} DrivenSpends(c: Config, p: Plan, worker: Who, k: nat)
    requires IsWorker(worker) && p.who == TheController(true) && k > 0 && !Driven(c, p, 1).control.running
    ensures !Driven(c, p, k).control.running
    ensures Spent(Rank(worker, Driven(c, p, 1)), Scheduled(worker, p.turns, k), Rank(worker, Driven(c, p, k)))
    decreases k
  {
    if k > 1 {
      DrivenSpends(c, p, worker, k - 1);
      TurnSpends(c, Driven(c, p, k - 1), worker, TurnAt(p.turns, k - 1));
    }
  }

  lemma {:induction false} ScheduledByThen(worker: Who, turns: seq<Turn>, j: nat, k: nat)
    requires j <= k
    ensures Scheduled(worker, turns, j) <= Scheduled(worker, turns, k)
    decreases k
  {
    if j < k {
      ScheduledByThen(worker, turns, j, k - 1);
    }
  }

  /** At the end of a schedule with five, five and three steps of the workers every one of them has exited. */
  lemma WorkersHaveExited(c: Config, p: Plan, k: nat)
    requires p.who == TheController(true) && k > 0 && !Driven(c, p, 1).control.running && k >= |p.turns|
    requires Scheduled(ThePublisher, p.turns, |p.turns|) >= 5
    requires Scheduled(TheCommander, p.turns, |p.turns|) >= 5
    requires Scheduled(ThePusher, p.turns, |p.turns|) >= 3
    ensures var s := Driven(c, p, k);
            s.publish.thread == PubOff && s.command.thread == CmdOff && s.reliable.thread == PushOff
  {
    WorkerHasExited(c, p, ThePublisher, k);
    WorkerHasExited(c, p, TheCommander, k);
    WorkerHasExited(c, p, ThePusher, k);
  }

  lemma WorkerHasExited(c: Config, p: Plan, worker: Who, k: nat)
    requires p.who == TheController(true) && k > 0 && !Driven(c, p, 1).control.running
    requires IsWorker(worker) && k >= |p.turns| && Scheduled(worker, p.turns, |p.turns|) >= MaxRank(worker)
    ensures Rank(worker, Driven(c, p, k)) == 0
  {
    DrivenSpends(c, p, worker, k);
    ScheduledByThen(worker, p.turns, |p.turns|, k);
    assert Rank(worker, Driven(c, p, 1)) <= MaxRank(worker);
  }
}

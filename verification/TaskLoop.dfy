// Running a task for every item of a stream, all of them concurrently.

module TaskLoop {
  import opened Outcomes

  /** What a task, or the whole loop, comes to. */
  datatype Outcome = Fine | Failed(error: string)

  /** What the scheduler finds ready next: the stream, with an item or at its end, or a running task. A poll of
      something that is not ready, or that the loop does not wait for at this point, is no event and changes nothing. */
  datatype Poll =
    | Arrives(item: nat)
    | Ends
    | Completes(which: nat, result: Outcome)

  /** Items by the order of their tasks' starts; tasks still running; tasks completed, in order. */
  datatype Tasks = Tasks(
    started: seq<nat>,
    running: seq<nat>,
    completed: seq<Completion>,
    terminated: bool,
    result: Option<Outcome>)

  datatype Completion = Completion(task: nat, result: Outcome)

  const IDLE: Tasks := Tasks([], [], [], false, None)

  function RemoveAt<T>(xs: seq<T>, i: nat): seq<T>
    requires i < |xs|
  {
    xs[..i] + xs[i + 1..]
  }

  /** The loop returns as soon as it finds an error, or nothing running and the stream at its end. */
  function Settle(t: Tasks): Tasks {
    if t.result == None && t.terminated && t.running == [] then t.(result := Some(Fine)) else t
  }

  function Step(t: Tasks, poll: Poll): Tasks {
    if t.result.Some? then t else
    match poll
    case Arrives(item) =>
      if t.terminated then t
      else t.(started := t.started + [item], running := t.running + [|t.started|])
    case Ends => if t.terminated then t else Settle(t.(terminated := true))
    case Completes(which, result) =>
      if which >= |t.running| then t else
      var t' := t.(running := RemoveAt(t.running, which), completed := t.completed + [Completion(t.running[which], result)]);
      if result.Failed? then t'.(result := Some(result)) else Settle(t')
  }

  function Steps(polls: seq<Poll>): Tasks {
    if polls == [] then IDLE else Step(Steps(polls[..|polls| - 1]), polls[|polls| - 1])
  }

  /** Runs as far as the polls go; no result means the loop still waits. */
  method ProcessStreamConcurrently(polls: seq<Poll>)
    returns (result: Option<Outcome>, started: seq<nat>, futures: seq<nat>, completed: seq<Completion>,
            terminated: bool)
    ensures Steps(polls) == Tasks(started, futures, completed, terminated, result)
  {
    result, started, futures, completed, terminated := None, [], [], [], false;
    for i := 0 to |polls|
      invariant Steps(polls[..i]) == Tasks(started, futures, completed, terminated, None)
      invariant result == None && !(terminated && futures == [])
    {
      assert polls[..i + 1][..i] == polls[..i];
      if futures == [] {
        // Nothing runs: only the stream is waited for.
        match polls[i] {
          case Arrives(item) =>
            futures := futures + [|started|];
            started := started + [item];
          case Ends =>
            result := Some(Fine);
            terminated := true;
          case Completes(_, _) =>
        }
      } else if terminated {
        // The stream is at its end: only the tasks are waited for.
        if polls[i].Completes? && polls[i].which < |futures| {
          result, futures, completed := Complete(futures, completed, polls[i].which, polls[i].result);
          if result.None? && futures == [] {
            result := Some(Fine);
          }
        }
      } else {
        match polls[i] {
          case Arrives(item) =>
            futures := futures + [|started|];
            started := started + [item];
          case Ends =>
            terminated := true;
          case Completes(which, _) =>
            if which < |futures| {
              result, futures, completed := Complete(futures, completed, which, polls[i].result);
            }
        }
      }
      if result.Some? {
        StaysSettled(polls, i + 1);
        return;
      }
    }
    assert polls[..|polls|] == polls;
  }

  /** Takes a finished task out of the set; its error is the loop's. */
  method Complete(futures: seq<nat>, completed: seq<Completion>, which: nat, outcome: Outcome)
    returns (result: Option<Outcome>, running: seq<nat>, done: seq<Completion>)
    requires which < |futures|
    ensures result == if outcome.Failed? then Some(outcome) else None
    ensures running == RemoveAt(futures, which) && done == completed + [Completion(futures[which], outcome)]
  {
    result := if outcome.Failed? then Some(outcome) else None;
    running, done := RemoveAt(futures, which), completed + [Completion(futures[which], outcome)];
  }

  lemma {:induction false} StaysSettled(polls: seq<Poll>, i: nat)
    requires i <= |polls| && Steps(polls[..i]).result.Some?
    ensures Steps(polls) == Steps(polls[..i])
    decreases |polls| - i
  {
    if i == |polls| {
      assert polls[..i] == polls;
    } else {
      assert polls[..i + 1][..i] == polls[..i];
      StaysSettled(polls, i + 1);
    }
  }

  // ---- Every schedule ------------------------------------------------------------------------

  /** What the stream has produced up to its end. */
  function Produced(polls: seq<Poll>): seq<nat> {
    if polls == [] then [] else
    var init, last := polls[..|polls| - 1], polls[|polls| - 1];
    Produced(init) + if last.Arrives? && Ends !in init then [last.item] else []
  }

  function TaskOf(completed: seq<Completion>): seq<nat> {
    seq(|completed|, i requires 0 <= i < |completed| => completed[i].task)
  }

  function Range(n: nat): seq<nat> { seq(n, i requires 0 <= i < n => i) }

  ghost predicate Accounted(t: Tasks) {
    multiset(t.running) + multiset(TaskOf(t.completed)) == multiset(Range(|t.started|))
  }

  lemma {:induction false} StepAccounts(t: Tasks, poll: Poll)
    requires Accounted(t)
    ensures Accounted(Step(t, poll))
  {
    match poll
    case Arrives(item) =>
      if t.result == None && !t.terminated {
        StartedOne(t, item);
      }
    case Completes(which, result) =>
      if t.result == None && which < |t.running| {
        Removed(t.running, which);
        CompletedOne(t.completed, Completion(t.running[which], result));
        Moved(multiset(t.running), multiset(RemoveAt(t.running, which)), multiset(TaskOf(t.completed)),
              t.running[which], multiset(Range(|t.started|)));
      }
    case _ =>
  }

  lemma StartedOne(t: Tasks, item: nat)
    requires Accounted(t)
    ensures Accounted(t.(started := t.started + [item], running := t.running + [|t.started|]))
  {
    assert Range(|t.started| + 1) == Range(|t.started|) + [|t.started|];
  }

  lemma Moved(r: multiset<nat>, r': multiset<nat>, c: multiset<nat>, x: nat, all: multiset<nat>)
    requires r + c == all && r' + multiset{x} == r
    ensures r' + (c + multiset{x}) == all
  {
  }

  lemma Removed(xs: seq<nat>, i: nat)
    requires i < |xs|
    ensures multiset(RemoveAt(xs, i)) + multiset{xs[i]} == multiset(xs)
  {
    assert xs == xs[..i] + ([xs[i]] + xs[i + 1..]);
  }

  lemma CompletedOne(completed: seq<Completion>, c: Completion)
    ensures multiset(TaskOf(completed + [c])) == multiset(TaskOf(completed)) + multiset{c.task}
  {
    assert TaskOf(completed + [c]) == TaskOf(completed) + [c.task];
  }

  /** Under every schedule each task that was started is running or has completed, once. */
  lemma {:induction false} EachTaskOnce(polls: seq<Poll>)
    ensures Accounted(Steps(polls))
  {
    if polls == [] {
      assert Range(0) == [] && TaskOf([]) == [];
    } else {
      EachTaskOnce(polls[..|polls| - 1]);
      StepAccounts(Steps(polls[..|polls| - 1]), polls[|polls| - 1]);
    }
  }

  predicate AllOk(completed: seq<Completion>) {
    forall i :: 0 <= i < |completed| ==> completed[i].result.Fine?
  }

  /** The loop returns `Ok` exactly when the stream has ended and every task has completed without error, and
      an error exactly when a task has failed: that of the first failure it sees, with which it stops. */
  ghost predicate RightResult(t: Tasks) {
    && (t.result == Some(Fine) <==> t.terminated && t.running == [] && AllOk(t.completed))
    && (t.result.Some? && t.result.value.Failed? <==> !AllOk(t.completed))
    && (!AllOk(t.completed) ==>
          AllOk(t.completed[..|t.completed| - 1]) && t.result == Some(t.completed[|t.completed| - 1].result))
  }

  lemma {:induction false} StepIsRight(t: Tasks, poll: Poll)
    requires RightResult(t)
    ensures RightResult(Step(t, poll))
  {
    if poll.Completes? && t.result == None && poll.which < |t.running| {
      var more := t.completed + [Completion(t.running[poll.which], poll.result)];
      assert more[..|more| - 1] == t.completed;
      assert more[|more| - 1].result == poll.result;
      if poll.result.Fine? {
        assert AllOk(more);
      }
    }
  }

  /** Unless it stops on an error, it starts a task for every item of the stream, in order. */
  ghost predicate KeepsUp(t: Tasks, produced: seq<nat>, ended: bool) {
    t.started <= produced && (AllOk(t.completed) ==> t.started == produced && t.terminated == ended)
  }

  lemma {:induction false} StepKeepsUp(t: Tasks, poll: Poll, produced: seq<nat>, ended: bool)
    requires RightResult(t) && KeepsUp(t, produced, ended)
    ensures KeepsUp(Step(t, poll), if poll.Arrives? && !ended then produced + [poll.item] else produced, ended || poll.Ends?)
  {
    match poll
    case Arrives(item) => assert t.started <= produced + [item];
    case Ends => assert t.result == None ==> AllOk(t.completed);
    case Completes(which, result) =>
      if which < |t.running| {
        AllOkButLast(t.completed, Completion(t.running[which], result));
      }
  }

  lemma AllOkButLast(completed: seq<Completion>, c: Completion)
    ensures AllOk(completed + [c]) <==> AllOk(completed) && c.result.Fine?
  {
    var more := completed + [c];
    assert more[|completed|] == c;
    assert forall i :: 0 <= i < |completed| ==> more[i] == completed[i];
  }

  lemma {:induction false} LoopIsRight(polls: seq<Poll>)
    ensures RightResult(Steps(polls)) && KeepsUp(Steps(polls), Produced(polls), Ends in polls)
  {
    if polls != [] {
      var init, last := polls[..|polls| - 1], polls[|polls| - 1];
      LoopIsRight(init);
      StepIsRight(Steps(init), last);
      StepKeepsUp(Steps(init), last, Produced(init), Ends in init);
      assert polls == init + [last];
      assert Produced(init) + [] == Produced(init);
    }
  }
}

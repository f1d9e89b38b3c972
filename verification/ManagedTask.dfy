/**
 The managed task as an object: the handlers and the status loops of the source, each proved to
 compute its function in TaskState.
 */
module ManagedTask {
  import opened TaskState
  import opened TaskMachine
  import opened WaitGroup

  /** The container is below its desired status and its dependencies let it move. */
  predicate CanMove(c: Container, resolved: bool) { c.known < c.desired && resolved }

  /** The decisions of startContainerTransitions about the first k containers. */
  function ConsiderUpTo(m: Machine, resolved: seq<bool>, k: nat): (n: Machine)
    requires |resolved| == |m.task.containers| && k <= |resolved|
    ensures |n.task.containers| == |m.task.containers|
  {
    if k == 0 then m else DoConsider(ConsiderUpTo(m, resolved, k - 1), k - 1, resolved[k - 1])
  }

  lemma ConsiderKeeps(m: Machine, i: nat, resolved: bool)
    requires i < |m.task.containers|
    ensures |DoConsider(m, i, resolved).task.containers| == |m.task.containers|
    ensures forall k | 0 <= k < |m.task.containers| && k != i ::
              DoConsider(m, i, resolved).task.containers[k] == m.task.containers[k]
    ensures DoConsider(m, i, resolved).over == m.over && DoConsider(m, i, resolved).task.known == m.task.known
  {
  }

  /** The whole loop is a run that considers the containers in order. */
  lemma {:induction false} ConsideredIsRun(m: Machine, resolved: seq<bool>, k: nat) returns (run: seq<Step>)
    requires |resolved| == |m.task.containers| && k <= |resolved| && !m.over && m.task.known != TASK_STOPPED
    ensures CanRun(m, run, false) && Run(m, run, false) == ConsiderUpTo(m, resolved, k)
    ensures |run| == k && forall i | 0 <= i < k :: run[i] == Consider(i, resolved[i])
    ensures !ConsiderUpTo(m, resolved, k).over && ConsiderUpTo(m, resolved, k).task.known == m.task.known
  {
    if k == 0 {
      run := [];
    } else {
      var before := ConsideredIsRun(m, resolved, k - 1);
      ConsiderKeeps(ConsiderUpTo(m, resolved, k - 1), k - 1, resolved[k - 1]);
      RunSnoc(m, before, Consider(k - 1, resolved[k - 1]), false);
      run := before + [Consider(k - 1, resolved[k - 1])];
    }
  }

  class Managed {
    var known: int
    var desired: int
    var stopSequenceNumber: int
    var containers: seq<Container>
    var unexpectedStart: bool
    const taskStopWG: SequentialWaitGroup

    ghost function View(): Task
      reads this
    {
      Task(known, desired, stopSequenceNumber, containers)
    }

    constructor (t: Task, group: SequentialWaitGroup)
      ensures View() == t && taskStopWG == group && !unexpectedStart
    {
      known, desired, stopSequenceNumber, containers := t.known, t.desired, t.stopSeq, t.containers;
      unexpectedStart, taskStopWG := false, group;
    }

    /** Returns whether the known status changed. */
    method UpdateKnownStatus() returns (changed: bool)
      modifies this`known
      ensures View() == UpdateKnown(old(View()))
      ensures changed == (known != old(known))
    {
      changed := false;
      if |containers| == 0 { return; }
      var slowest, essentialStopped := 0, false;
      var earliest := TASK_ZOMBIE;
      for i := 0 to |containers|
        invariant essentialStopped == EssentialStopped(containers[..i])
        invariant i == 0 ==> slowest == 0
        invariant i > 0 ==> slowest == Slowest(containers[..i]) < i
        invariant earliest == Earliest(containers[..i])
      {
        var c := containers[i];
        assert containers[..i + 1][..i] == containers[..i] && containers[..i + 1][i] == c;
        assert EssentialStopped(containers[..i + 1]) == (EssentialStopped(containers[..i]) || (c.essential && c.known == STOPPED)) by {
          assert forall k | 0 <= k < i :: containers[..i + 1][k] == containers[..i][k];
        }
        if c.known == STOPPED && c.essential { essentialStopped := true; }
        if i == 0 || c.known < containers[slowest].known { slowest := i; }
        var status := MapContainerToTask(c.known, c.steady);
        if status < earliest { earliest := status; }
      }
      assert containers[..|containers|] == containers;
      if containers[slowest].known == containers[slowest].steady && essentialStopped { return; }
      if known < earliest {
        known := earliest;
        changed := true;
      }
    }

    method UpdateDesiredStatus()
      modifies this`desired, this`containers
      ensures View() == UpdateDesired(old(View()))
    {
      for i := 0 to |containers|
        invariant containers == old(containers)
        invariant desired == if EssentialEnding(containers[..i]) then TASK_STOPPED else old(desired)
      {
        var c := containers[i];
        assert EssentialEnding(containers[..i + 1]) ==
            (EssentialEnding(containers[..i]) || (c.essential && (c.known == STOPPED || c.desired == STOPPED))) by {
          assert forall k | 0 <= k < i :: containers[..i + 1][k] == containers[..i][k];
        }
        if c.essential && (c.known == STOPPED || c.desired == STOPPED) { desired := TASK_STOPPED; }
      }
      assert containers[..|containers|] == containers;
      ghost var before := containers;
      for i := 0 to |containers|
        invariant |containers| == |before| && desired == UpdateDesired(old(View())).desired
        invariant forall k | 0 <= k < i :: containers[k] == RaiseDesired(before[k], desired)
        invariant forall k | i <= k < |before| :: containers[k] == before[k]
      {
        var target := MapTaskToContainer(desired, containers[i].steady);
        if containers[i].desired < target {
          containers := containers[i := containers[i].(desired := target)];
        }
      }
      assert containers == RaiseAll(before, desired);
    }

    method UpdateStatuses() returns (changed: bool)
      modifies this`known, this`desired, this`containers
      ensures View() == UpdateStatus(old(View()))
      ensures changed == (known != old(known))
    {
      changed := UpdateKnownStatus();
      UpdateDesiredStatus();
    }

    /** An order below or at the current desired status is dropped; the first numbered stop joins the group. */
    method HandleDesiredStatusChange(wanted: int, seqnum: int)
      modifies this`desired, this`stopSequenceNumber, this`containers, taskStopWG
      ensures View() == ChangeDesired(old(View()), wanted, seqnum)
      ensures taskStopWG.semaphores == if AddsToGroup(old(View()), wanted, seqnum) then AddTo(old(taskStopWG.semaphores), seqnum, 1)
                                       else old(taskStopWG.semaphores)
    {
      if wanted <= desired { return; }
      if wanted == TASK_STOPPED && seqnum != 0 && stopSequenceNumber == 0 {
        stopSequenceNumber := seqnum;
        taskStopWG.Add(seqnum, 1);
      }
      desired := wanted;
      UpdateDesiredStatus();
    }

    /** Returns whether the handler starts a stop call for the container. */
    method HandleContainerChange(i: nat, status: int, err: Failure, failOnPull: bool) returns (forceStop: bool)
      requires i < |containers|
      modifies this
      ensures View() == HandleEvent(old(View()), i, status, err, failOnPull)
      ensures forceStop == StartsStop(old(containers)[i], status, err, failOnPull, old(unexpectedStart))
      ensures unexpectedStart == (old(unexpectedStart) || CameBack(old(containers)[i], status))
    {
      var c := containers[i];
      if status <= c.known {
        forceStop := c.known == STOPPED && IsRunning(status) && !unexpectedStart;
        if forceStop { unexpectedStart := true; }
        return;
      }
      containers := containers[i := SetKnown(c, status)];
      var proceed := true;
      forceStop := false;
      if err != NoError { proceed, forceStop := HandleEventError(i, status, err, c.known, failOnPull, c); }
      assert containers == old(containers)[i := ApplyEvent(c, status, err, failOnPull).container];
      if proceed { var changed := UpdateStatuses(); }
    }

    /** c is the container before its known status was set; it is known to be in `current`. */
    method HandleEventError(i: nat, status: int, err: Failure, current: int, failOnPull: bool, ghost c: Container)
      returns (proceed: bool, forceStop: bool)
      requires i < |containers| && err != NoError && c.known == current && containers[i] == SetKnown(c, status)
      modifies this`containers, this`desired
      ensures var o := ApplyEvent(c, status, err, failOnPull);
              && containers == old(containers)[i := o.container]
              && desired == (if o.stopTask then TASK_STOPPED else old(desired))
              && proceed == o.proceed && forceStop == o.forceStop
    {
      proceed, forceStop := false, false;
      if status == PULLED {
        if failOnPull { desired := TASK_STOPPED; } else { proceed := true; }
      } else if status == STOPPED {
        if err == Timeout || err == RetriableStop {
          containers := containers[i := SetKnown(containers[i], current)];
        } else {
          containers := containers[i := SetKnown(containers[i], STOPPED).(desired := STOPPED)];
          proceed := true;
        }
      } else if status == NONE || status == CREATED {
        containers := containers[i := SetKnown(containers[i], current).(desired := STOPPED)];
      } else {
        containers := containers[i := SetKnown(containers[i], current).(desired := STOPPED)];
        forceStop := err == Timeout || err == CannotInspect || err == StartEof;
      }
    }

    /** Decides about one container and books a message, a call, or neither. */
    method StartTransition(i: nat, resolved: bool, messages: multiset<(nat, int)>, calls: multiset<(nat, int)>, ghost m: Machine)
      returns (messages': multiset<(nat, int)>, calls': multiset<(nat, int)>, moves: bool)
      requires i < |containers| && m.task == View() && m.messages == messages && m.inflight == calls
      modifies this`containers
      ensures DoConsider(m, i, resolved) == m.(task := View(), messages := messages', inflight := calls')
      ensures moves == CanMove(old(containers)[i], resolved)
      ensures |containers| == |old(containers)| && forall k | 0 <= k < |containers| && k != i :: containers[k] == old(containers)[k]
    {
      messages', calls' := messages, calls;
      var t := NextState(containers[i], resolved);
      moves := !t.Blocked?;
      if t.Message? {
        messages' := messages + multiset{(i, t.status)};
      } else if t.Action? && containers[i].applied == NONE {
        containers := containers[i := containers[i].(applied := t.status)];
        calls' := calls + multiset{(i, t.status)};
      }
    }

    /** The loop over all containers, in order; `anyMoves` tells that the task is not stuck. */
    method StartContainerTransitions(resolved: seq<bool>, messages: multiset<(nat, int)>, calls: multiset<(nat, int)>, ghost m: Machine)
      returns (messages': multiset<(nat, int)>, calls': multiset<(nat, int)>, anyMoves: bool)
      requires |resolved| == |containers| && m.task == View() && m.messages == messages && m.inflight == calls
      modifies this`containers
      ensures ConsiderUpTo(m, resolved, |resolved|) == m.(task := View(), messages := messages', inflight := calls')
      ensures anyMoves <==> exists i | 0 <= i < |resolved| :: CanMove(m.task.containers[i], resolved[i])
    {
      messages', calls', anyMoves := messages, calls, false;
      for i := 0 to |resolved|
        invariant |containers| == |resolved| == |m.task.containers|
        invariant forall k | i <= k < |containers| :: containers[k] == m.task.containers[k]
        invariant ConsiderUpTo(m, resolved, i) == m.(task := View(), messages := messages', inflight := calls')
        invariant anyMoves <==> exists k | 0 <= k < i :: CanMove(m.task.containers[k], resolved[k])
      {
        ghost var n := ConsiderUpTo(m, resolved, i);
        var moves;
        messages', calls', moves := StartTransition(i, resolved[i], messages', calls', n);
        assert ConsiderUpTo(m, resolved, i + 1) == DoConsider(n, i, resolved[i]);
        anyMoves := anyMoves || moves;
      }
    }

    /** After the main loop: a task that joined the group leaves it. */
    method FinishStop()
      requires known == TASK_STOPPED
      modifies taskStopWG
      ensures taskStopWG.semaphores == if stopSequenceNumber != 0 then DoneAt(old(taskStopWG.semaphores), stopSequenceNumber)
                                       else old(taskStopWG.semaphores)
    {
      if stopSequenceNumber != 0 { taskStopWG.Done(stopSequenceNumber); }
    }

    method HandleUnableToTransition()
      modifies this, taskStopWG
      ensures View() == if old(desired) == TASK_STOPPED then old(View()).(known := TASK_STOPPED)
                        else ChangeDesired(old(View()), TASK_STOPPED, 0)
      ensures taskStopWG.semaphores == old(taskStopWG.semaphores)
    {
      if desired == TASK_STOPPED { known := TASK_STOPPED; } else { HandleDesiredStatusChange(TASK_STOPPED, 0); }
    }
  }
}

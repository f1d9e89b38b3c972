/**
 The sequential wait group that orders task starts after earlier stops.
 */
module WaitGroup {
  datatype Op = Add(sequence: int) | Done(sequence: int)

  function AddTo(m: map<int, int>, s: int, delta: int): map<int, int> {
    var n := if s in m then m[s] + delta else delta;
    if n <= 0 then m - {s} else m[s := n]
  }

  function DoneAt(m: map<int, int>, s: int): map<int, int> {
    if s !in m then m
    else if m[s] == 1 then m - {s} else m[s := m[s] - 1]
  }

  function Replay(log: seq<Op>): map<int, int> {
    if log == [] then map[]
    else
      var m := Replay(log[..|log| - 1]);
      match log[|log| - 1]
      case Add(s) => AddTo(m, s, 1)
      case Done(s) => DoneAt(m, s)
  }

  /** How many more Adds than Dones of s the log holds. */
  function Balance(log: seq<Op>, s: int): int {
    if log == [] then 0 else Balance(log[..|log| - 1], s) + Weight(log[|log| - 1], s)
  }

  function Weight(op: Op, s: int): int { if op.sequence != s then 0 else if op.Add? then 1 else -1 }

  /** The open stops of s: a Done closes one, and does nothing if there is none. */
  function Open(log: seq<Op>, s: int): nat {
    if log == [] then 0
    else
      var last, n := log[|log| - 1], Open(log[..|log| - 1], s);
      if last.sequence != s then n else if last.Add? then n + 1 else if n > 0 then n - 1 else 0
  }

  /** The group holds, for every sequence number, exactly the stops that are still open. */
  lemma {:induction false} HoldsOpenStops(log: seq<Op>, s: int)
    ensures if s in Replay(log) then Replay(log)[s] == Open(log, s) > 0 else Open(log, s) == 0
  {
    if log != [] {
      HoldsOpenStops(log[..|log| - 1], s);
    }
  }

  /** The open stops are the largest surplus of Adds over Dones since any point; so no stray Done ever counts. */
  lemma {:induction false} OpenIsLargestSurplus(log: seq<Op>, s: int)
    ensures forall k | 0 <= k <= |log| :: Balance(log[k..], s) <= Open(log, s)
    ensures exists k :: 0 <= k <= |log| && Balance(log[k..], s) == Open(log, s)
  {
    if log == [] {
      assert log[0..] == [];
    } else {
      var n := |log| - 1;
      var front := log[..n];
      OpenIsLargestSurplus(front, s);
      forall k | 0 <= k <= |log| ensures Balance(log[k..], s) <= Open(log, s) { SurplusGrows(log, k, s); }
      var j :| 0 <= j <= n && Balance(front[j..], s) == Open(front, s);
      SurplusGrows(log, j, s);
      assert log[|log|..] == [];
    }
  }

  lemma SurplusGrows(log: seq<Op>, k: nat, s: int)
    requires log != [] && k <= |log|
    ensures k == |log| ==> Balance(log[k..], s) == 0
    ensures k < |log| ==> Balance(log[k..], s) == Balance(log[..|log| - 1][k..], s) + Weight(log[|log| - 1], s)
  {
    if k < |log| { assert log[k..][..|log[k..]| - 1] == log[..|log| - 1][k..]; }
  }

  class SequentialWaitGroup {
    var semaphores: map<int, int>

    constructor ()
      ensures semaphores == map[]
    {
      semaphores := map[];
    }

    method Add(sequence: int, delta: int)
      modifies this
      ensures semaphores == AddTo(old(semaphores), sequence, delta)
    {
      if sequence in semaphores {
        semaphores := semaphores[sequence := semaphores[sequence] + delta];
      } else {
        semaphores := semaphores[sequence := delta];
      }
      if semaphores[sequence] <= 0 { semaphores := semaphores - {sequence}; }
    }

    method Done(sequence: int)
      modifies this
      ensures semaphores == DoneAt(old(semaphores), sequence)
    {
      if sequence in semaphores {
        semaphores := semaphores[sequence := semaphores[sequence] - 1];
        if semaphores[sequence] == 0 { semaphores := semaphores - {sequence}; }
      }
    }

    /** The wait for a sequence number ends when no stop with that or a lower number is open. */
    method WaitOver(sequence: int, ghost log: seq<Op>) returns (over: bool)
      requires semaphores == Replay(log)
      ensures over <==> forall s | s <= sequence :: Open(log, s) == 0
    {
      var left := semaphores.Keys;
      while left != {}
        invariant left <= semaphores.Keys
        invariant forall s | s in semaphores && s !in left :: s > sequence
      {
        NotEmpty(left);
        var s :| s in left;
        if s <= sequence {
          HoldsOpenStops(log, s);
          return false;
        }
        left := left - {s};
      }
      forall s | s <= sequence ensures Open(log, s) == 0 { HoldsOpenStops(log, s); }
      return true;
    }
  }

  lemma NotEmpty(s: set<int>)
    ensures s == {} || exists k :: k in s
  {
    if forall k :: k !in s { assert s == {}; }
  }
}

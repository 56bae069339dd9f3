/** The parallel delete of syncReplicas: a WaitGroup, one goroutine per chosen
    machine, and a channel of errors with room for `diff`
    (pkg/controller/machineset/machineset_controller.go:291-323). Any schedule
    of the goroutines is possible. */
module FanOut {

  datatype Worker = Unspawned | Calling | Sending | Leaving | Exited

  /** `diff` is what wg.Add was given and the capacity of the channel; `sent`
      holds the workers whose error is in the channel; `failed` those whose
      delete call failed. */
  datatype Fan = Fan(diff: nat, workers: seq<Worker>, wg: int, sent: seq<nat>, failed: set<nat>)

  datatype Move =
    | Spawn(i: nat)
    | Return(i: nat, ok: bool)
    | Send(i: nat)
    | Leave(i: nat)

  /** wg.Add(diff) was done; no goroutine runs yet. */
  function Start(diff: nat, chosen: nat): (f: Fan)
  {
    Fan(diff, seq(chosen, i => Unspawned), diff, [], {})
  }

  /** Spawning is in order; a send needs room in the channel. */
  predicate CanMove(f: Fan, m: Move) {
    match m
    case Spawn(i) => i < |f.workers| && f.workers[i] == Unspawned && forall j :: 0 <= j < i ==>
        f.workers[j] != Unspawned
    case Return(i, _) => i < |f.workers| && f.workers[i] == Calling
    case Send(i) => i < |f.workers| && f.workers[i] == Sending && |f.sent| < f.diff
    case Leave(i) => i < |f.workers| && f.workers[i] == Leaving
  }

  /** Whether a call can return does not depend on its answer. */
  lemma ReturnsEitherWay(f: Fan, m: Move, ok: bool)
    requires CanMove(f, m)
    ensures m.i < |f.workers| && (m.Return? ==> CanMove(f, Return(m.i, ok)))
  {
  }

  function DoMove(f: Fan, m: Move): Fan
    requires CanMove(f, m)
  {
    match m
    case Spawn(i) => f.(workers := f.workers[i := Calling])
    case Return(i, ok) =>
      if ok then f.(workers := f.workers[i := Leaving])
      else f.(workers := f.workers[i := Sending], failed := f.failed + {i})
    case Send(i) => f.(workers := f.workers[i := Leaving], sent := f.sent + [i])
    case Leave(i) => f.(workers := f.workers[i := Exited], wg := f.wg - 1)
  }

  /** A schedule: moves that are not possible have no effect. */
  function Run(f: Fan, moves: seq<Move>): Fan {
    if moves == [] then f
    else
      var g := Run(f, moves[..|moves| - 1]);
      if CanMove(g, moves[|moves| - 1]) then DoMove(g, moves[|moves| - 1]) else g
  }

  /** The main goroutine has spawned all workers. */
  predicate AllSpawned(f: Fan) {
    forall i :: 0 <= i < |f.workers| ==> f.workers[i] != Unspawned
  }

  /** wg.Wait returns. */
  predicate WaitReturns(f: Fan) {
    AllSpawned(f) && f.wg == 0
  }

  function Gone(workers: seq<Worker>): (n: nat)
    ensures n <= |workers|
  {
    if workers == [] then 0
    else Gone(workers[..|workers| - 1]) + if workers[|workers| - 1] == Exited then 1 else 0
  }

  lemma {:induction false} GoneAfter(workers: seq<Worker>, i: nat, w: Worker)
    requires i < |workers| && workers[i] != Exited
    ensures Gone(workers[i := w]) == Gone(workers) + if w == Exited then 1 else 0
  {
    var front, changed := workers[..|workers| - 1], workers[i := w];
    if i < |workers| - 1 {
      GoneAfter(front, i, w);
      assert changed[..|changed| - 1] == front[i := w];
    } else {
      assert changed[..|changed| - 1] == front;
    }
  }

  lemma {:induction false} AllGone(workers: seq<Worker>)
    ensures Gone(workers) == |workers| <==> forall i :: 0 <= i < |workers| ==> workers[i] == Exited
  {
    if workers != [] {
      var front := workers[..|workers| - 1];
      AllGone(front);
      if forall i :: 0 <= i < |workers| ==> workers[i] == Exited {
        assert forall i :: 0 <= i < |front| ==> front[i] == workers[i];
      }
      if Gone(workers) == |workers| {
        forall i | 0 <= i < |workers| ensures workers[i] == Exited {
          assert i < |front| ==> front[i] == workers[i];
        }
      }
    }
  }

  // ---- The invariant of every schedule ------------------------------------------

  ghost predicate FanOk(f: Fan) {
    && f.wg == f.diff - Gone(f.workers)
    && (forall i :: i in f.failed ==> i < |f.workers| && f.workers[i] in {Sending, Leaving, Exited})
    && (forall i :: i in f.sent ==> i in f.failed && f.workers[i] != Sending)
    && (forall i :: i in f.failed && f.workers[i] != Sending ==> i in f.sent)
    && (forall i :: 0 <= i < |f.workers| && f.workers[i] == Sending ==> i in f.failed)
    && (forall i, j :: 0 <= i < j < |f.sent| ==> f.sent[i] != f.sent[j])
  }

  lemma MoveKeepsOk(f: Fan, m: Move)
    requires FanOk(f) && CanMove(f, m)
    ensures FanOk(DoMove(f, m))
    ensures DoMove(f, m).diff == f.diff && |DoMove(f, m).workers| == |f.workers|
  {
    GoneAfter(f.workers, m.i, DoMove(f, m).workers[m.i]);
  }

  lemma {:induction false} StartOk(diff: nat, chosen: nat)
    ensures FanOk(Start(diff, chosen))
  {
    NobodyGone(Start(diff, chosen).workers);
  }

  lemma {:induction false} NobodyGone(workers: seq<Worker>)
    requires forall i :: 0 <= i < |workers| ==> workers[i] == Unspawned
    ensures Gone(workers) == 0
  {
    if workers != [] {
      NobodyGone(workers[..|workers| - 1]);
    }
  }

  /** Every state of every schedule is sound. */
  lemma {:induction false} RunOk(diff: nat, chosen: nat, moves: seq<Move>)
    ensures var f := Run(Start(diff, chosen), moves); FanOk(f) && f.diff == diff && |f.workers| == chosen
  {
    if moves == [] {
      StartOk(diff, chosen);
    } else {
      RunOk(diff, chosen, moves[..|moves| - 1]);
      var f := Run(Start(diff, chosen), moves[..|moves| - 1]);
      if CanMove(f, moves[|moves| - 1]) {
        MoveKeepsOk(f, moves[|moves| - 1]);
      }
    }
  }

  // ---- No send blocks -------------------------------------------------------------

  lemma BoundedSequence(s: seq<nat>, n: nat)
    requires forall i, j :: 0 <= i < j < |s| ==> s[i] != s[j]
    requires forall x :: x in s ==> x < n
    ensures |s| <= n
  {
    if s == [] {
      return;
    }
    assert s[0] in s;
    if n - 1 in s {
      var i :| 0 <= i < |s| && s[i] == n - 1;
      var rest := s[..i] + s[i + 1..];
      forall x | x in rest ensures x < n - 1 {
        assert x in s && x != n - 1;
      }
      BoundedSequence(rest, n - 1);
    } else {
      BoundedSequence(s, n - 1);
    }
  }

  lemma SendIsPossible(f: Fan, i: nat)
    requires FanOk(f) && |f.workers| <= f.diff
    requires i < |f.workers| && f.workers[i] == Sending
    ensures CanMove(f, Send(i))
  {
    var all := f.sent + [i];
    assert i !in f.sent;
    BoundedSequence(all, |f.workers|);
  }

  /** In every schedule a worker that has an error to report can send it: the
      channel has room for all of them. */
  lemma NoSendBlocks(diff: nat, chosen: nat, moves: seq<Move>, i: nat)
    requires i < chosen <= diff
    ensures var f := Run(Start(diff, chosen), moves);
            |f.workers| == chosen && (f.workers[i] == Sending ==> CanMove(f, Send(i)))
  {
    RunOk(diff, chosen, moves);
    var f := Run(Start(diff, chosen), moves);
    if f.workers[i] == Sending {
      SendIsPossible(f, i);
    }
  }

  // ---- Wait returns ----------------------------------------------------------------

  predicate AllExited(f: Fan) {
    forall i :: 0 <= i < |f.workers| ==> f.workers[i] == Exited
  }

  /** Something can still happen unless every worker has left. */
  lemma Progress(f: Fan) returns (m: Move)
    requires FanOk(f) && |f.workers| <= f.diff && !AllExited(f)
    ensures CanMove(f, m)
  {
    var i :| 0 <= i < |f.workers| && f.workers[i] != Exited;
    match f.workers[i]
    case Unspawned =>
      var k := FirstUnspawned(f.workers, i);
      m := Spawn(k);
    case Calling => m := Return(i, true);
    case Sending =>
      SendIsPossible(f, i);
      m := Send(i);
    case Leaving => m := Leave(i);
  }

  lemma FirstUnspawned(workers: seq<Worker>, i: nat) returns (k: nat)
    requires i < |workers| && workers[i] == Unspawned
    ensures k <= i && workers[k] == Unspawned && forall j :: 0 <= j < k ==> workers[j] != Unspawned
    decreases i
  {
    k := i;
    if j :| 0 <= j < i && workers[j] == Unspawned {
      k := FirstUnspawned(workers, j);
    }
  }

  function StepsLeft(w: Worker): nat {
    match w case Unspawned => 4 case Calling => 3 case Sending => 2 case Leaving => 1 case Exited => 0
  }

  function TotalLeft(workers: seq<Worker>): nat {
    if workers == [] then 0 else TotalLeft(workers[..|workers| - 1]) + StepsLeft(workers[|workers| - 1])
  }

  lemma {:induction false} TotalDrops(workers: seq<Worker>, i: nat, w: Worker)
    requires i < |workers|
    ensures TotalLeft(workers[i := w]) == TotalLeft(workers) - StepsLeft(workers[i]) + StepsLeft(w)
  {
    var front, changed := workers[..|workers| - 1], workers[i := w];
    if i < |workers| - 1 {
      TotalDrops(front, i, w);
      assert changed[..|changed| - 1] == front[i := w];
    } else {
      assert changed[..|changed| - 1] == front;
    }
  }

  /** No schedule goes on for ever. */
  lemma MovesEnd(f: Fan, m: Move)
    requires CanMove(f, m)
    ensures TotalLeft(DoMove(f, m).workers) < TotalLeft(f.workers)
  {
    TotalDrops(f.workers, m.i, DoMove(f, m).workers[m.i]);
  }

  lemma WaitOf(f: Fan)
    requires FanOk(f) && |f.workers| <= f.diff
    ensures WaitReturns(f) <==> |f.workers| == f.diff && AllExited(f)
  {
    AllGone(f.workers);
  }

  /** In every schedule wg.Wait returns exactly when all workers have left, and
      only if as many workers were spawned as wg.Add announced. */
  lemma WaitReturnsIff(diff: nat, chosen: nat, moves: seq<Move>)
    requires chosen <= diff
    ensures var f := Run(Start(diff, chosen), moves);
            WaitReturns(f) <==> chosen == diff && AllExited(f)
  {
    RunOk(diff, chosen, moves);
    WaitOf(Run(Start(diff, chosen), moves));
  }

  lemma SentOf(f: Fan)
    requires FanOk(f) && AllExited(f)
    ensures (f.sent != [] <==> f.failed != {}) && forall i :: i in f.sent <==> i in f.failed
  {
    if f.failed != {} {
      var i :| i in f.failed;
      assert i in f.sent;
    }
    if f.sent != [] {
      assert f.sent[0] in f.sent;
    }
  }

  /** After Wait the channel holds an error exactly if some delete failed, and
      an error of every delete that failed. */
  lemma SelectSeesFailure(diff: nat, chosen: nat, moves: seq<Move>)
    requires chosen <= diff
    ensures var f := Run(Start(diff, chosen), moves);
            WaitReturns(f) ==> (f.sent != [] <==> f.failed != {}) && forall i :: i in f.sent <==> i in f.failed
  {
    RunOk(diff, chosen, moves);
    var f := Run(Start(diff, chosen), moves);
    WaitOf(f);
    if WaitReturns(f) {
      SentOf(f);
    }
  }

  /** A schedule that lets every worker finish. */
  lemma Finish(f: Fan) returns (moves: seq<Move>)
    requires FanOk(f) && |f.workers| <= f.diff
    ensures AllExited(Run(f, moves)) && FanOk(Run(f, moves))
    ensures |Run(f, moves).workers| == |f.workers| && Run(f, moves).diff == f.diff
    decreases TotalLeft(f.workers)
  {
    if AllExited(f) {
      moves := [];
    } else {
      var m := Progress(f);
      MoveKeepsOk(f, m);
      MovesEnd(f, m);
      var rest := Finish(DoMove(f, m));
      RunCons(f, m, rest);
      moves := [m] + rest;
    }
  }

  lemma {:induction false} RunCons(f: Fan, m: Move, rest: seq<Move>)
    requires CanMove(f, m)
    ensures Run(f, [m] + rest) == Run(DoMove(f, m), rest)
  {
    if rest == [] {
      assert [m] + rest == [m] && [m][..0] == [];
    } else {
      RunCons(f, m, rest[..|rest| - 1]);
      assert ([m] + rest)[..|rest|] == [m] + rest[..|rest| - 1];
    }
  }

  /** How many machines getMachinesToDeletePrioritized chooses. */
  function Chosen(len: nat, diff: nat): nat {
    if diff >= len then len else diff
  }

  /** The schedule lets the wait return. */
  predicate EndsAfter(f: Fan, moves: seq<Move>) {
    WaitReturns(Run(f, moves))
  }

  ghost predicate CanEnd(f: Fan) {
    exists moves :: EndsAfter(f, moves)
  }

  /** With more owned machines than wanted, the wait can end if and only if the
      wanted number is not negative. With a negative number no schedule at all
      lets it end. */
  lemma WaitEndsIffReplicasNotNegative(len: nat, replicas: int)
    requires len - replicas > 0
    ensures CanEnd(Start(len - replicas, Chosen(len, len - replicas))) <==> replicas >= 0
  {
    var diff := len - replicas;
    var f := Start(diff, Chosen(len, diff));
    StartOk(diff, Chosen(len, diff));
    if replicas >= 0 {
      var moves := Finish(f);
      WaitOf(Run(f, moves));
      assert EndsAfter(f, moves);
    }
    forall moves | EndsAfter(f, moves) ensures replicas >= 0 {
      WaitReturnsIff(diff, Chosen(len, diff), moves);
    }
  }
}

/** System V semaphore sets as POSIX.1-2008 describes semop() and semctl(), for
    the three-counter sets that the protocol uses: [0] the value, [1] the process
    counter, [2] the creation and closing lock. */
module SysVSemaphores {

  /** One word per semaphore of the set; used for values and for adjustments. */
  datatype Triple = Triple(value: int, procs: int, lock: int) {
    function At(num: nat): int
      requires num < 3
    {
      if num == 0 then value else if num == 1 then procs else lock
    }

    function Add(num: nat, n: int): Triple
      requires num < 3
    {
      if num == 0 then this.(value := value + n)
      else if num == 1 then this.(procs := procs + n)
      else this.(lock := lock + n)
    }
  }

  const ZERO := Triple(0, 0, 0)

  /** `struct sembuf`; `undo` is the SEM_UNDO flag. */
  datatype Sembuf = Sembuf(num: nat, op: int, undo: bool)

  /** A semop() either changes values and the caller's adjustments, or has to wait. */
  datatype Attempt = Done(val: Triple, adj: Triple) | Blocks

  predicate WellFormed(ops: seq<Sembuf>) {
    forall i :: 0 <= i < |ops| ==> ops[i].num < 3
  }

  /** A whole operation array, all or nothing. A zero operation waits for zero, a
      negative one waits until the value can be lowered; with SEM_UNDO the
      opposite amount is added to the caller's adjustment. */
  function Semop(val: Triple, adj: Triple, ops: seq<Sembuf>): Attempt
    requires WellFormed(ops)
    decreases |ops|
  {
    if ops == [] then Done(val, adj)
    else
      var o := ops[0];
      var now := val.At(o.num);
      if (o.op == 0 && now != 0) || now + o.op < 0 then Blocks
      else
        Semop(val.Add(o.num, o.op), if o.undo then adj.Add(o.num, -o.op) else adj, ops[1..])
  }

  function AtLeastZero(n: int): int {
    if n < 0 then 0 else n
  }

  /** What exit does to a set: the process's adjustments are added, never below zero. */
  function Undo(val: Triple, adj: Triple): Triple {
    Triple(AtLeastZero(val.value + adj.value), AtLeastZero(val.procs + adj.procs), AtLeastZero(val.lock + adj.lock))
  }

  /** The number of processes that may hold the set open. */
  const BIGCOUNT := 31

  const OP_LOCK := [Sembuf(2, 0, false), Sembuf(2, 1, true)]
  const OP_UNLOCK := [Sembuf(2, -1, true)]
  const OP_ENDCREATE := [Sembuf(1, -1, true), Sembuf(2, -1, true)]
  const OP_CLOSE := [Sembuf(2, 0, false), Sembuf(2, 1, true), Sembuf(1, 1, true)]

  /** `op_op` after sem_op() has stored its amount. */
  function OpOp(amount: int): seq<Sembuf> {
    [Sembuf(0, amount, true)]
  }

  lemma Semop1(val: Triple, adj: Triple, a: Sembuf)
    requires a.num < 3
    ensures Semop(val, adj, [a]) ==
            if (a.op == 0 && val.At(a.num) != 0) || val.At(a.num) + a.op < 0 then Blocks
            else Done(val.Add(a.num, a.op), if a.undo then adj.Add(a.num, -a.op) else adj)
  {
    assert [a][1..] == [];
  }

  lemma SemopCons(val: Triple, adj: Triple, a: Sembuf, rest: seq<Sembuf>)
    requires a.num < 3 && WellFormed(rest)
    ensures WellFormed([a] + rest)
    ensures Semop(val, adj, [a] + rest) ==
            if (a.op == 0 && val.At(a.num) != 0) || val.At(a.num) + a.op < 0 then Blocks
            else Semop(val.Add(a.num, a.op), if a.undo then adj.Add(a.num, -a.op) else adj, rest)
  {
    assert ([a] + rest)[1..] == rest;
  }

  /** Taking the lock: possible exactly when nobody has it, and owed back on exit. */
  lemma LockMeans(val: Triple, adj: Triple)
    ensures Semop(val, adj, OP_LOCK) ==
            if val.lock != 0 then Blocks
            else Done(val.(lock := 1), adj.(lock := adj.lock - 1))
  {
    assert OP_LOCK == [OP_LOCK[0]] + [OP_LOCK[1]];
    SemopCons(val, adj, OP_LOCK[0], [OP_LOCK[1]]);
    Semop1(val, adj, OP_LOCK[1]);
  }

  lemma UnlockMeans(val: Triple, adj: Triple)
    requires val.lock >= 1
    ensures Semop(val, adj, OP_UNLOCK) == Done(val.(lock := val.lock - 1), adj.(lock := adj.lock + 1))
  {
    Semop1(val, adj, OP_UNLOCK[0]);
  }

  /** The end of a create counts the caller in and releases the lock in one step. */
  lemma EndCreateMeans(val: Triple, adj: Triple)
    requires val.lock >= 1
    ensures Semop(val, adj, OP_ENDCREATE) ==
            if val.procs < 1 then Blocks
            else Done(Triple(val.value, val.procs - 1, val.lock - 1), Triple(adj.value, adj.procs + 1, adj.lock + 1))
  {
    assert OP_ENDCREATE == [OP_ENDCREATE[0]] + [OP_ENDCREATE[1]];
    SemopCons(val, adj, OP_ENDCREATE[0], [OP_ENDCREATE[1]]);
    if val.procs >= 1 {
      Semop1(val.Add(1, -1), adj.Add(1, 1), OP_ENDCREATE[1]);
    }
  }

  /** A close takes the lock and counts the caller out in one step. */
  lemma CloseMeans(val: Triple, adj: Triple)
    requires val.procs >= 0
    ensures Semop(val, adj, OP_CLOSE) ==
            if val.lock != 0 then Blocks
            else Done(Triple(val.value, val.procs + 1, 1), Triple(adj.value, adj.procs - 1, adj.lock - 1))
  {
    assert OP_CLOSE == [OP_CLOSE[0]] + ([OP_CLOSE[1]] + [OP_CLOSE[2]]);
    SemopCons(val, adj, OP_CLOSE[0], [OP_CLOSE[1]] + [OP_CLOSE[2]]);
    SemopCons(val, adj, OP_CLOSE[1], [OP_CLOSE[2]]);
    if val.lock == 0 {
      Semop1(val.Add(2, 1), adj.Add(2, -1), OP_CLOSE[2]);
    }
  }

  lemma OpMeans(val: Triple, adj: Triple, n: int)
    requires n == 1 || n == -1
    requires val.value >= 0
    ensures Semop(val, adj, OpOp(n)) ==
            if val.value + n < 0 then Blocks
            else Done(val.(value := val.value + n), adj.(value := adj.value - n))
  {
    Semop1(val, adj, OpOp(n)[0]);
  }
}

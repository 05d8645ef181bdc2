/** A process's descriptor table and the calls that change it: pipe(), close(),
    dup2(), open() and fork(). */
module Descriptors {

  /** What a descriptor refers to; the two ends of a pipe carry the pipe's number. */
  datatype File =
    | ReadEnd(pipe: nat)
    | WriteEnd(pipe: nat)
    | Socket(conn: nat)
    | Disk(name: string)
    | Console

  type Table = map<nat, File>

  predicate IsPipe(f: File) {
    f.ReadEnd? || f.WriteEnd?
  }

  /** The descriptor that the kernel hands out next: the lowest one not in use. */
  function LowestFree(t: Table): (fd: nat)
    ensures fd !in t && forall k: nat :: k < fd ==> k in t
  {
    LowestFreeFrom(t, 0)
  }

  function LowestFreeFrom(t: Table, low: nat): (fd: nat)
    requires forall k: nat :: k < low ==> k in t
    ensures fd !in t && forall k: nat :: k < fd ==> k in t
    decreases Above(t, low)
  {
    if low !in t then low
    else
      assert low in Above(t, low) && low !in Above(t, low + 1);
      LowestFreeFrom(t, low + 1)
  }

  function Above(t: Table, low: nat): set<nat> {
    set k | k in t && low <= k
  }

  /** Every end of every pipe made so far is open at exactly one descriptor, or has been
      closed exactly once. */
  ghost predicate Balanced(t: Table, made: nat, closed: multiset<File>) {
    && (forall fd :: fd in t && IsPipe(t[fd]) ==> t[fd].pipe < made)
    && (forall fd, g :: fd in t && g in t && IsPipe(t[fd]) && t[fd] == t[g] ==> fd == g)
    && (forall f: File :: IsPipe(f) ==> closed[f] == if f.pipe < made && f !in t.Values then 1 else 0)
  }

  /** A descriptor that is no pipe comes or goes. */
  lemma BalancedPlain(t: Table, t2: Table, made: nat, closed: multiset<File>, closed2: multiset<File>)
    requires Balanced(t, made, closed)
    requires forall fd :: (fd in t && IsPipe(t[fd]) <==> fd in t2 && IsPipe(t2[fd])) && (fd in t && IsPipe(t[fd]) ==> t2[fd] == t[fd])
    requires forall f: File :: IsPipe(f) ==> closed2[f] == closed[f]
    ensures Balanced(t2, made, closed2)
  {
    forall f: File | IsPipe(f) ensures f in t.Values <==> f in t2.Values {
      if f in t.Values {
        var fd :| fd in t && t[fd] == f;
        assert t2[fd] == f;
      }
      if f in t2.Values {
        var fd :| fd in t2 && t2[fd] == f;
        assert t[fd] == f;
      }
    }
  }

  lemma BalancedPipe(t: Table, made: nat, closed: multiset<File>, r: nat, w: nat)
    requires Balanced(t, made, closed) && r !in t && w !in t && r != w
    ensures Balanced(t[r := ReadEnd(made)][w := WriteEnd(made)], made + 1, closed)
  {
    var t2 := t[r := ReadEnd(made)][w := WriteEnd(made)];
    assert t2[r] == ReadEnd(made) && t2[w] == WriteEnd(made);
    forall f: File | IsPipe(f) && f.pipe < made ensures f in t.Values <==> f in t2.Values {
      if f in t.Values {
        var fd :| fd in t && t[fd] == f;
        assert t2[fd] == f;
      }
      if f in t2.Values {
        var fd :| fd in t2 && t2[fd] == f;
        assert t[fd] == f;
      }
    }
  }

  lemma BalancedClose(t: Table, made: nat, closed: multiset<File>, fd: nat)
    requires Balanced(t, made, closed) && fd in t
    ensures Balanced(t - {fd}, made, closed + multiset{t[fd]})
  {
    var t2 := t - {fd};
    forall f: File | IsPipe(f) ensures f in t2.Values <==> f in t.Values && f != t[fd] {
      if f in t.Values {
        var g :| g in t && t[g] == f;
        assert f != t[fd] ==> t2[g] == f;
      }
      if f in t2.Values {
        var g :| g in t2 && t2[g] == f;
        assert t[g] == f;
      }
    }
    assert t[fd] in t.Values;
  }

  class Process {
    var fds: Table
    /** The number of pipes made so far; a new pipe gets this number. */
    var made: nat
    /** What has been closed, as often as it has been closed. */
    ghost var closed: multiset<File>

    ghost predicate Accounted()
      reads this
    {
      Balanced(fds, made, closed)
    }

    constructor (fds: Table, made: nat)
      ensures this.fds == fds && this.made == made && closed == multiset{}
    {
      this.fds := fds;
      this.made := made;
      closed := multiset{};
    }

    method Open(f: File) returns (fd: nat)
      modifies this
      ensures fd == LowestFree(old(fds)) && fds == old(fds)[fd := f] && made == old(made) && closed == old(closed)
      ensures !IsPipe(f) && old(Accounted()) ==> Accounted()
    {
      fd := LowestFree(fds);
      fds := fds[fd := f];
      if !IsPipe(f) && old(Accounted()) {
        BalancedPlain(old(fds), fds, made, closed, closed);
      }
    }

    method Pipe() returns (r: nat, w: nat)
      modifies this
      ensures r == LowestFree(old(fds)) && r !in old(fds)
      ensures w == LowestFree(old(fds)[r := ReadEnd(old(made))]) && w !in old(fds) && w != r
      ensures fds == old(fds)[r := ReadEnd(old(made))][w := WriteEnd(old(made))]
      ensures made == old(made) + 1 && closed == old(closed)
      ensures old(Accounted()) ==> Accounted()
    {
      hide Balanced;
      r := Open(ReadEnd(made));
      w := Open(WriteEnd(made));
      made := made + 1;
      if old(Accounted()) {
        BalancedPipe(old(fds), old(made), closed, r, w);
      }
    }

    /** Only what is open is ever closed. */
    method Close(fd: nat)
      requires fd in fds
      modifies this
      ensures fds == old(fds) - {fd} && made == old(made) && closed == old(closed) + multiset{old(fds)[fd]}
      ensures old(Accounted()) ==> Accounted()
    {
      hide Balanced;
      if Accounted() {
        BalancedClose(fds, made, closed, fd);
      }
      closed := closed + multiset{fds[fd]};
      fds := fds - {fd};
    }

    /** dup2() over a descriptor that was open closes that one first. */
    method Dup2(from: nat, to: nat)
      modifies this
      ensures fds == (if from in old(fds) then old(fds)[to := old(fds)[from]] else old(fds)) && made == old(made)
      ensures from in old(fds) && !IsPipe(old(fds)[from]) && (to in old(fds) ==> !IsPipe(old(fds)[to])) && old(Accounted()) ==> Accounted()
    {
      if from in fds {
        if to in fds && to != from {
          closed := closed + multiset{fds[to]};
        }
        fds := fds[to := fds[from]];
        if !IsPipe(old(fds)[from]) && (to in old(fds) ==> !IsPipe(old(fds)[to])) && old(Accounted()) {
          BalancedPlain(old(fds), fds, made, old(closed), closed);
        }
      }
    }

    method Fork() returns (child: Process)
      ensures fresh(child) && child.fds == fds && child.made == made
    {
      child := new Process(fds, made);
    }
  }
}

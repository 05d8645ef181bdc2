/** The vector of number pipes: `|N` and `!N` park a line's output for the N-th later
    line. Every line counts all the countdowns down in place. */
module NumberPipes {
  import opened Descriptors

  /** The two descriptors of a pipe, and the pipe's number. */
  datatype Ends = Ends(r: nat, w: nat, id: nat)

  /** `struct Number_pipe`. */
  datatype Entry = Entry(rest: int, ends: Ends)

  // ---------- The vector as a value ----------

  function Ticked(v: seq<Entry>): seq<Entry> {
    seq(|v|, i requires 0 <= i < |v| => v[i].(rest := v[i].rest - 1))
  }

  predicate Has(v: seq<Entry>, n: int) {
    exists i :: 0 <= i < |v| && v[i].rest == n
  }

  /** The first entry with countdown `n`. */
  function Find(v: seq<Entry>, n: int): (i: nat)
    ensures i <= |v| && forall j :: 0 <= j < i ==> v[j].rest != n
    ensures i < |v| ==> v[i].rest == n
    ensures i < |v| <==> Has(v, n)
  {
    if v == [] then 0
    else if v[0].rest == n then 0
    else
      var j := Find(v[1..], n);
      assert forall k :: 0 <= k < |v[1..]| ==> v[1..][k] == v[k + 1];
      j + 1
  }

  /** What erase(remove_if(PipeDead)) leaves. */
  function Alive(v: seq<Entry>): seq<Entry> {
    if v == [] then [] else (if v[0].rest == 0 then [] else [v[0]]) + Alive(v[1..])
  }

  lemma {:induction false} AliveMembers(v: seq<Entry>, e: Entry)
    ensures e in Alive(v) <==> e in v && e.rest != 0
  {
    if v != [] {
      AliveMembers(v[1..], e);
    }
  }

  predicate Distinct(v: seq<Entry>) {
    forall i, j :: 0 <= i < j < |v| ==> v[i].rest != v[j].rest && v[i].ends.id != v[j].ends.id
  }

  /** The descriptors that the closing loops close. */
  function DueOut(v: seq<Entry>): set<nat> {
    set i | 0 <= i < |v| && v[i].rest == 0 :: v[i].ends.w
  }

  function DueIn(v: seq<Entry>): set<nat> {
    set i | 0 <= i < |v| && v[i].rest == 0 :: v[i].ends.r
  }

  /** The map that the vector stands for: absolute line number to pipe, when the line
      being handled is number `now`. */
  function Agenda(v: seq<Entry>, now: int): map<int, Ends> {
    if v == [] then map[] else Agenda(v[..|v| - 1], now)[now + v[|v| - 1].rest := v[|v| - 1].ends]
  }

  lemma {:induction false} AgendaAt(v: seq<Entry>, now: int, i: nat)
    requires Distinct(v) && i < |v|
    ensures now + v[i].rest in Agenda(v, now) && Agenda(v, now)[now + v[i].rest] == v[i].ends
  {
    var n := |v| - 1;
    if i < n {
      AgendaAt(v[..n], now, i);
    }
  }

  lemma {:induction false} AgendaKeys(v: seq<Entry>, now: int, line: int)
    ensures line in Agenda(v, now) <==> Has(v, line - now)
  {
    if v != [] {
      var n := |v| - 1;
      AgendaKeys(v[..n], now, line);
      assert Has(v[..n], line - now) ==> Has(v, line - now);
    }
  }

  /** Counting down moves no deadline. */
  lemma {:induction false} TickKeepsAgenda(v: seq<Entry>, now: int)
    ensures Agenda(Ticked(v), now + 1) == Agenda(v, now)
    ensures Distinct(v) ==> Distinct(Ticked(v))
  {
    if v != [] {
      var n := |v| - 1;
      TickKeepsAgenda(v[..n], now);
      assert Ticked(v)[..n] == Ticked(v[..n]);
    }
  }

  lemma ParkAddsToAgenda(v: seq<Entry>, now: int, n: int, e: Ends)
    requires Distinct(v) && !Has(v, n) && forall i :: 0 <= i < |v| ==> v[i].ends.id != e.id
    ensures Distinct(v + [Entry(n, e)])
    ensures Agenda(v + [Entry(n, e)], now) == Agenda(v, now)[now + n := e]
  {
    assert (v + [Entry(n, e)])[..|v|] == v;
  }

  lemma {:induction false} AliveAppend(v: seq<Entry>, e: Entry)
    ensures Alive(v + [e]) == Alive(v) + (if e.rest == 0 then [] else [e])
  {
    if v != [] {
      assert (v + [e])[1..] == v[1..] + [e];
      AliveAppend(v[1..], e);
    }
  }

  lemma {:induction false} AliveDistinct(v: seq<Entry>)
    requires Distinct(v)
    ensures Distinct(Alive(v))
  {
    if v != [] {
      var n := |v| - 1;
      assert v == v[..n] + [v[n]];
      AliveDistinct(v[..n]);
      AliveAppend(v[..n], v[n]);
      var a := Alive(v[..n]);
      forall i | 0 <= i < |a| ensures a[i].rest != v[n].rest && a[i].ends.id != v[n].ends.id {
        AliveMembers(v[..n], a[i]);
      }
    }
  }

  /** Erasing the dead entries takes the present line, and only it, off the agenda. */
  lemma {:induction false} EraseKeepsAgenda(v: seq<Entry>, now: int)
    ensures Agenda(Alive(v), now) == Agenda(v, now) - {now}
  {
    if v != [] {
      EraseKeepsAgenda(v[..|v| - 1], now);
      EraseStep(v[..|v| - 1], v[|v| - 1], now);
      assert v == v[..|v| - 1] + [v[|v| - 1]];
      hide Agenda, Alive;
    }
  }

  lemma EraseStep(before: seq<Entry>, e: Entry, now: int)
    requires Agenda(Alive(before), now) == Agenda(before, now) - {now}
    ensures Agenda(Alive(before + [e]), now) == Agenda(before + [e], now) - {now}
  {
    hide Agenda, Alive;
    AliveAppend(before, e);
    AgendaAppend(before, now, e);
    if e.rest == 0 {
      assert Alive(before) + [] == Alive(before);
      OverwriteThenRemove(Agenda(before, now), now, e.ends);
    } else {
      AgendaAppend(Alive(before), now, e);
      UpdateThenRemove(Agenda(before, now), now, now + e.rest, e.ends);
    }
  }

  lemma AgendaAppend(v: seq<Entry>, now: int, e: Entry)
    ensures Agenda(v + [e], now) == Agenda(v, now)[now + e.rest := e.ends]
  {
    assert (v + [e])[..|v|] == v;
  }

  lemma OverwriteThenRemove(m: map<int, Ends>, k: int, e: Ends)
    ensures m[k := e] - {k} == m - {k}
  {
  }

  lemma UpdateThenRemove(m: map<int, Ends>, k: int, l: int, e: Ends)
    requires l != k
    ensures (m - {k})[l := e] == m[l := e] - {k}
  {
  }

  lemma FindLast(v: seq<Entry>, e: Entry)
    requires !Has(v, e.rest)
    ensures Has(v + [e], e.rest) && Find(v + [e], e.rest) == |v|
  {
    var w := v + [e];
    assert w[|v|].rest == e.rest;
    assert forall i :: 0 <= i < |v| ==> w[i] == v[i];
  }

  // ---------- The loops over the vector ----------

  class NumberPipes {
    var vec: seq<Entry>

    constructor ()
      ensures vec == []
    {
      vec := [];
    }

    /** The countdown at the start of a line. */
    method Tick() returns (due: bool)
      modifies this
      ensures vec == Ticked(old(vec)) && (due <==> Has(vec, 0))
    {
      due := false;
      var i := 0;
      while i < |vec|
        invariant i <= |vec| == |old(vec)|
        invariant forall j :: 0 <= j < i ==> vec[j] == Ticked(old(vec))[j]
        invariant forall j :: i <= j < |vec| ==> vec[j] == old(vec)[j]
        invariant due <==> exists j :: 0 <= j < i && vec[j].rest == 0
      {
        vec := vec[i := vec[i].(rest := vec[i].rest - 1)];
        if vec[i].rest == 0 {
          due := true;
        }
        i := i + 1;
      }
    }

    /** The search for a pipe with the same deadline, and the new pipe if there is none. */
    method Park(p: Process, n: int) returns (out: nat)
      modifies this, p
      ensures Has(vec, n) && out == vec[Find(vec, n)].ends.w
      ensures Has(old(vec), n) ==> vec == old(vec) && p.fds == old(p.fds) && p.made == old(p.made)
      ensures !Has(old(vec), n) ==>
        var r := LowestFree(old(p.fds));
        var w := LowestFree(old(p.fds)[r := ReadEnd(old(p.made))]);
        && vec == old(vec) + [Entry(n, Ends(r, w, old(p.made)))]
        && p.fds == old(p.fds)[r := ReadEnd(old(p.made))][w := WriteEnd(old(p.made))]
        && p.made == old(p.made) + 1
      ensures old(p.Accounted()) ==> p.Accounted()
    {
      hide Balanced;
      var j := 0;
      while j < |vec|
        invariant j <= |vec| && vec == old(vec) && p.fds == old(p.fds) && p.made == old(p.made) && p.closed == old(p.closed)
        invariant forall k :: 0 <= k < j ==> vec[k].rest != n
      {
        if n == vec[j].rest {
          assert Find(vec, n) == j;
          out := vec[j].ends.w;
          return;
        }
        j := j + 1;
      }
      var r, w := p.Pipe();
      vec := vec + [Entry(n, Ends(r, w, p.made - 1))];
      assert vec[|vec| - 1].rest == n;
      FindLast(old(vec), vec[|vec| - 1]);
      out := w;
    }

    method CloseDueOut(p: Process)
      requires Distinct(vec) && DueOut(vec) <= p.fds.Keys
      modifies p
      ensures p.fds == old(p.fds) - DueOut(vec) && p.made == old(p.made)
      ensures old(p.Accounted()) ==> p.Accounted()
    {
      hide Balanced;
      var i := 0;
      while i < |vec|
        invariant i <= |vec| && p.made == old(p.made)
        invariant p.fds == old(p.fds) - DueOut(vec[..i])
        invariant old(p.Accounted()) ==> p.Accounted()
      {
        assert DueOut(vec[..i + 1]) == DueOut(vec[..i]) + (if vec[i].rest == 0 then {vec[i].ends.w} else {}) by {
          assert vec[..i + 1] == vec[..i] + [vec[i]];
          assert forall k :: 0 <= k < i ==> vec[..i + 1][k] == vec[..i][k];
        }
        if vec[i].rest == 0 {
          assert vec[i].ends.w in DueOut(vec) && DueOut(vec[..i]) == {};
          p.Close(vec[i].ends.w);
        }
        i := i + 1;
      }
      assert vec[..i] == vec;
    }

    method CloseDueIn(p: Process)
      requires Distinct(vec) && DueIn(vec) <= p.fds.Keys
      modifies p
      ensures p.fds == old(p.fds) - DueIn(vec) && p.made == old(p.made)
      ensures old(p.Accounted()) ==> p.Accounted()
    {
      hide Balanced;
      var i := 0;
      while i < |vec|
        invariant i <= |vec| && p.made == old(p.made)
        invariant p.fds == old(p.fds) - DueIn(vec[..i])
        invariant old(p.Accounted()) ==> p.Accounted()
      {
        assert DueIn(vec[..i + 1]) == DueIn(vec[..i]) + (if vec[i].rest == 0 then {vec[i].ends.r} else {}) by {
          assert vec[..i + 1] == vec[..i] + [vec[i]];
          assert forall k :: 0 <= k < i ==> vec[..i + 1][k] == vec[..i][k];
        }
        if vec[i].rest == 0 {
          assert vec[i].ends.r in DueIn(vec) && DueIn(vec[..i]) == {};
          p.Close(vec[i].ends.r);
        }
        i := i + 1;
      }
      assert vec[..i] == vec;
    }

    method EraseDue()
      modifies this
      ensures vec == Alive(old(vec))
    {
      vec := Alive(vec);
    }

    /** A child's search for the pipe it has to read. */
    method DupDue(child: Process)
      modifies child
      ensures child.made == old(child.made)
      ensures child.fds ==
        var i := Find(vec, 0);
        if i < |vec| && vec[i].ends.r in old(child.fds) then old(child.fds)[0 := old(child.fds)[vec[i].ends.r]] else old(child.fds)
    {
      var i := 0;
      while i < |vec|
        invariant i <= |vec| && child.fds == old(child.fds) && child.made == old(child.made)
        invariant forall j :: 0 <= j < i ==> vec[j].rest != 0
      {
        if vec[i].rest == 0 {
          assert Find(vec, 0) == i;
          child.Dup2(vec[i].ends.r, 0);
          return;
        }
        i := i + 1;
      }
    }
  }
}

/** Strings as the C library treats them: words between separators, decimal numbers. */
module Text {

  // ---------- Words ----------

  /** The length of the longest prefix without a separator. */
  function WordLength(s: string, seps: string): (n: nat)
    ensures n <= |s|
  {
    if s == [] || s[0] in seps then 0 else 1 + WordLength(s[1..], seps)
  }

  /** The maximal separator-free pieces of `s`, in order. */
  function Words(s: string, seps: string): seq<string>
    decreases |s|
  {
    if s == [] then []
    else if s[0] in seps then Words(s[1..], seps)
    else [s[..WordLength(s, seps)]] + Words(s[WordLength(s, seps)..], seps)
  }

  predicate IsWord(w: string, seps: string) {
    w != [] && forall i :: 0 <= i < |w| ==> w[i] !in seps
  }

  lemma {:induction false} WordLengthIs(s: string, seps: string, n: nat)
    requires n <= |s| && (forall i :: 0 <= i < n ==> s[i] !in seps) && (n == |s| || s[n] in seps)
    ensures WordLength(s, seps) == n
  {
    if n > 0 {
      WordLengthIs(s[1..], seps, n - 1);
    }
  }

  lemma {:induction false} WordsAreWords(s: string, seps: string)
    ensures forall i :: 0 <= i < |Words(s, seps)| ==> IsWord(Words(s, seps)[i], seps)
    decreases |s|
  {
    if s != [] {
      if s[0] in seps {
        WordsAreWords(s[1..], seps);
      } else {
        var n := WordLength(s, seps);
        WordLengthFree(s, seps);
        WordsAreWords(s[n..], seps);
      }
    }
  }

  lemma {:induction false} NoWords(s: string, seps: string)
    ensures Words(s, seps) == [] <==> forall i :: 0 <= i < |s| ==> s[i] in seps
    decreases |s|
  {
    if s != [] && s[0] in seps {
      NoWords(s[1..], seps);
      assert forall i :: 1 <= i < |s| ==> s[i] == s[1..][i - 1];
    }
  }

  lemma {:induction false} WordLengthFree(s: string, seps: string)
    ensures forall i :: 0 <= i < WordLength(s, seps) ==> s[i] !in seps
    ensures WordLength(s, seps) < |s| ==> s[WordLength(s, seps)] in seps
  {
    if s != [] && s[0] !in seps {
      WordLengthFree(s[1..], seps);
      forall i | 0 <= i < WordLength(s, seps) ensures s[i] !in seps {
        if i > 0 {
          assert s[i] == s[1..][i - 1];
        }
      }
    }
  }

  // ---------- Words and what is between them ----------

  /** Words with text before, between and after them. */
  function Weave(ws: seq<string>, gaps: seq<string>): string
    requires |gaps| == |ws| + 1
  {
    if ws == [] then gaps[0] else gaps[0] + ws[0] + Weave(ws[1..], gaps[1..])
  }

  /** `s` is these words with runs of separators around them, none of them empty between
      two words. */
  predicate IsSplit(s: string, ws: seq<string>, gaps: seq<string>, seps: string) {
    && |gaps| == |ws| + 1 && s == Weave(ws, gaps)
    && (forall i :: 0 <= i < |ws| ==> IsWord(ws[i], seps))
    && (forall i :: 0 <= i < |gaps| ==> forall k :: 0 <= k < |gaps[i]| ==> gaps[i][k] in seps)
    && (forall i :: 0 < i < |ws| ==> gaps[i] != "")
  }

  lemma {:induction false} SkipGap(gap: string, s: string, seps: string)
    requires forall k :: 0 <= k < |gap| ==> gap[k] in seps
    ensures Words(gap + s, seps) == Words(s, seps)
  {
    if gap == "" {
      assert gap + s == s;
    } else {
      assert (gap + s)[1..] == gap[1..] + s;
      SkipGap(gap[1..], s, seps);
    }
  }

  lemma TakeWord(w: string, s: string, seps: string)
    requires IsWord(w, seps) && (s == "" || s[0] in seps)
    ensures Words(w + s, seps) == [w] + Words(s, seps)
  {
    WordLengthIs(w + s, seps, |w|);
    assert (w + s)[..|w|] == w && (w + s)[|w|..] == s;
  }

  lemma SplitRest(ws: seq<string>, gaps: seq<string>, seps: string)
    requires |gaps| == |ws| + 1 && ws != [] && IsSplit(Weave(ws, gaps), ws, gaps, seps)
    ensures IsSplit(Weave(ws[1..], gaps[1..]), ws[1..], gaps[1..], seps)
    ensures var t := Weave(ws[1..], gaps[1..]); t == "" || t[0] in seps
  {
    var rest, more := ws[1..], gaps[1..];
    assert forall i :: 0 <= i < |rest| ==> rest[i] == ws[i + 1];
    assert forall i :: 0 <= i < |more| ==> more[i] == gaps[i + 1];
    var t := Weave(rest, more);
    if rest != [] {
      assert more[0] == gaps[1] && more[0] != "";
      assert t[0] == more[0][0];
    }
  }

  /** Words with any runs of separators around them are read back, */
  lemma {:induction false} WordsOfWeave(s: string, ws: seq<string>, gaps: seq<string>, seps: string)
    requires IsSplit(s, ws, gaps, seps)
    ensures Words(s, seps) == ws
    decreases |ws|
  {
    if ws == [] {
      assert s == gaps[0] + "";
      SkipGap(gaps[0], "", seps);
    } else {
      var t := Weave(ws[1..], gaps[1..]);
      SplitRest(ws, gaps, seps);
      assert s == gaps[0] + (ws[0] + t);
      SkipGap(gaps[0], ws[0] + t, seps);
      TakeWord(ws[0], t, seps);
      WordsOfWeave(t, ws[1..], gaps[1..], seps);
    }
  }

  /** and every string is such words with such runs, so that nothing else is left out. */
  lemma {:induction false} WordsSplit(s: string, seps: string) returns (gaps: seq<string>)
    ensures IsSplit(s, Words(s, seps), gaps, seps)
    decreases |s|
  {
    var ws := Words(s, seps);
    if s == "" {
      gaps := [""];
    } else if s[0] in seps {
      var more := WordsSplit(s[1..], seps);
      gaps := more[0 := [s[0]] + more[0]];
      GapGrows(ws, more, s[0]);
      assert s == [s[0]] + s[1..];
    } else {
      var n := WordLength(s, seps);
      WordLengthFree(s, seps);
      var more := WordsSplit(s[n..], seps);
      gaps := [""] + more;
      WordBefore(s[n..], ws[1..], more, seps);
      assert ws == [s[..n]] + ws[1..] && gaps[1..] == more && s == "" + s[..n] + s[n..];
    }
  }

  lemma GapGrows(ws: seq<string>, gaps: seq<string>, c: char)
    requires |gaps| == |ws| + 1
    ensures Weave(ws, gaps[0 := [c] + gaps[0]]) == [c] + Weave(ws, gaps)
  {
    var more := gaps[0 := [c] + gaps[0]];
    assert more[1..] == gaps[1..];
    if ws != [] {
      assert ([c] + gaps[0]) + ws[0] + Weave(ws[1..], gaps[1..]) == [c] + (gaps[0] + ws[0] + Weave(ws[1..], gaps[1..]));
    }
  }

  lemma WordFirst(s: string, ws: seq<string>, gaps: seq<string>, seps: string)
    requires IsSplit(s, ws, gaps, seps) && ws != [] && gaps[0] == ""
    ensures s != "" && s[0] !in seps
  {
    assert s[0] == ws[0][0];
  }

  lemma WordBefore(s: string, ws: seq<string>, gaps: seq<string>, seps: string)
    requires IsSplit(s, ws, gaps, seps) && (s == "" || s[0] in seps)
    ensures ws != [] ==> gaps[0] != ""
  {
    if ws != [] && gaps[0] == "" {
      WordFirst(s, ws, gaps, seps);
    }
  }

  /** strtok() called until it returns NULL; also what `stream >> word` reads. */
  method Tokenize(s: string, seps: string) returns (ws: seq<string>)
    ensures ws == Words(s, seps)
    ensures exists gaps :: IsSplit(s, ws, gaps, seps)
  {
    ghost var gaps := WordsSplit(s, seps);
    hide IsSplit;
    ws := [];
    var i := 0;
    while i < |s|
      invariant i <= |s| && ws + Words(s[i..], seps) == Words(s, seps)
    {
      if s[i] in seps {
        assert s[i..][1..] == s[i + 1..];
        i := i + 1;
      } else {
        var j := i;
        while j < |s| && s[j] !in seps
          invariant i <= j <= |s| && forall k :: i <= k < j ==> s[k] !in seps
        {
          j := j + 1;
        }
        WordLengthIs(s[i..], seps, j - i);
        assert s[i..][..j - i] == s[i..j] && s[i..][j - i..] == s[j..];
        ws := ws + [s[i..j]];
        i := j;
      }
    }
  }

  function Join(ws: seq<string>, sep: string): string {
    if ws == [] then ""
    else if |ws| == 1 then ws[0]
    else ws[0] + sep + Join(ws[1..], sep)
  }

  /** Splitting undoes joining. */
  lemma {:induction false} WordsOfJoin(ws: seq<string>, sep: char, seps: string)
    requires sep in seps && forall i :: 0 <= i < |ws| ==> IsWord(ws[i], seps)
    ensures Words(Join(ws, [sep]), seps) == ws
  {
    if ws != [] {
      var w, rest := ws[0], ws[1..];
      var s := Join(ws, [sep]);
      assert s[0] == w[0] && s[0] !in seps;
      WordLengthIs(s, seps, |w|);
      assert s[..|w|] == w;
      if |ws| == 1 {
        assert s[|w|..] == [];
      } else {
        assert s[|w|..] == [sep] + Join(rest, [sep]);
        assert s[|w|..][1..] == Join(rest, [sep]);
        WordsOfJoin(rest, sep, seps);
      }
    }
  }

  // ---------- Decimal numbers ----------

  function Digit(d: nat): (c: char)
    requires d < 10
  {
    '0' + d as char
  }

  predicate IsDigit(c: char) {
    '0' <= c <= '9'
  }

  function Value(c: char): (d: nat)
    requires IsDigit(c)
    ensures d < 10 && Digit(d) == c
  {
    c as int - '0' as int
  }

  /** std::to_string of a number that is not negative. */
  function ToString(n: nat): (s: string)
    ensures s != [] && forall i :: 0 <= i < |s| ==> IsDigit(s[i])
  {
    if n < 10 then [Digit(n)] else ToString(n / 10) + [Digit(n % 10)]
  }

  lemma {:induction false} ToStringInjective(m: nat, n: nat)
    requires ToString(m) == ToString(n)
    ensures m == n
  {
    var s := ToString(m);
    assert s[|s| - 1] == Digit(m % 10) == Digit(n % 10);
    assert Value(Digit(m % 10)) == Value(Digit(n % 10));
    ToStringLength(m);
    ToStringLength(n);
    if m >= 10 && n >= 10 {
      assert s[..|s| - 1] == ToString(m / 10) == ToString(n / 10);
      ToStringInjective(m / 10, n / 10);
    }
  }

  lemma ToStringLength(n: nat)
    ensures n < 10 <==> |ToString(n)| == 1
  {
  }

  /** A number is written in decimal. */
  lemma ToStringDecimal(m: nat, d: nat)
    requires d < 10
    ensures ToString(d) == ["0123456789"[d]]
    ensures m > 0 ==> ToString(10 * m + d) == ToString(m) + ["0123456789"[d]]
  {
    assert "0123456789"[d] == Digit(d);
    assert m > 0 ==> (10 * m + d) / 10 == m && (10 * m + d) % 10 == d;
  }

  /** The number that the leading digits of `s` spell, after `acc`. */
  function Digits(s: string, acc: nat): nat {
    if s == [] || !IsDigit(s[0]) then acc else Digits(s[1..], 10 * acc + Value(s[0]))
  }

  function SkipBlanks(s: string): string {
    if s != [] && s[0] in " \t\n\U{0B}\U{0C}\r" then SkipBlanks(s[1..]) else s
  }

  /** atoi(), for values that fit an int. */
  function Atoi(s: string): int {
    var t := SkipBlanks(s);
    if t != [] && t[0] == '-' then 0 - Digits(t[1..], 0)
    else if t != [] && t[0] == '+' then Digits(t[1..], 0)
    else Digits(t, 0)
  }

  lemma {:induction false} DigitsOfAppend(s: string, c: char, acc: nat)
    requires IsDigit(c) && forall i :: 0 <= i < |s| ==> IsDigit(s[i])
    ensures Digits(s + [c], acc) == 10 * Digits(s, acc) + Value(c)
  {
    if s == [] {
      assert Digits(([c])[1..], 10 * acc + Value(c)) == 10 * acc + Value(c);
    } else {
      assert (s + [c])[1..] == s[1..] + [c];
      DigitsOfAppend(s[1..], c, 10 * acc + Value(s[0]));
    }
  }

  lemma {:induction false} DigitsOfToString(n: nat)
    ensures Digits(ToString(n), 0) == n
  {
    if n < 10 {
      assert Value(Digit(n)) == n;
      assert Digits([Digit(n)], 0) == n;
    } else {
      DigitsOfToString(n / 10);
      DigitsOfAppend(ToString(n / 10), Digit(n % 10), 0);
      assert Value(Digit(n % 10)) == n % 10;
    }
  }

  lemma {:induction false} DigitsBefore(s: string, junk: string, acc: nat)
    requires (forall i :: 0 <= i < |s| ==> IsDigit(s[i])) && (junk == "" || !IsDigit(junk[0]))
    ensures Digits(s + junk, acc) == Digits(s, acc)
  {
    if s == "" {
      assert s + junk == junk;
    } else {
      assert (s + junk)[1..] == s[1..] + junk;
      DigitsBefore(s[1..], junk, 10 * acc + Value(s[0]));
    }
  }

  lemma {:induction false} BlanksBefore(blanks: string, s: string)
    requires (forall i :: 0 <= i < |blanks| ==> blanks[i] in " \t\n\U{0B}\U{0C}\r") && (s == "" || s[0] !in " \t\n\U{0B}\U{0C}\r")
    ensures SkipBlanks(blanks + s) == s
  {
    if blanks == "" {
      assert blanks + s == s;
    } else {
      assert (blanks + s)[1..] == blanks[1..] + s;
      BlanksBefore(blanks[1..], s);
    }
  }

  /** Blanks, a sign, a number and anything that is no digit after it are read as the
      number; without a number the value is zero. */
  lemma AtoiReads(blanks: string, sign: string, n: nat, junk: string)
    requires forall i :: 0 <= i < |blanks| ==> blanks[i] in " \t\n\U{0B}\U{0C}\r"
    requires sign in ["", "+", "-"] && (junk == "" || !IsDigit(junk[0]))
    ensures Atoi(blanks + (sign + (ToString(n) + junk))) == if sign == "-" then 0 - n else n
    ensures sign != "" || junk == "" || (junk[0] !in "+-" && junk[0] !in " \t\n\U{0B}\U{0C}\r") ==> Atoi(blanks + (sign + junk)) == 0
  {
    DigitsOfToString(n);
    DigitsBefore(ToString(n), junk, 0);
    hide ToString;
    assert IsDigit(ToString(n)[0]);
    BlanksBefore(blanks, sign + (ToString(n) + junk));
    if sign != "" || junk == "" || (junk[0] !in "+-" && junk[0] !in " \t\n\U{0B}\U{0C}\r") {
      BlanksBefore(blanks, sign + junk);
      assert sign == "" ==> sign + junk == junk;
      assert sign != "" ==> (sign + junk)[1..] == junk;
    }
    assert sign != "" ==> (sign + (ToString(n) + junk))[1..] == ToString(n) + junk;
    assert sign == "" ==> sign + (ToString(n) + junk) == ToString(n) + junk;
  }

  /** Reading a printed number gives it back. */
  lemma AtoiOfToString(n: nat)
    ensures Atoi(ToString(n)) == n
  {
    DigitsOfToString(n);
    assert IsDigit(ToString(n)[0]);
  }
}

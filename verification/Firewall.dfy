/** The access rules of the SOCKS server: the loop over socks.conf, and what its string
    comparison means for addresses. */
module Firewall {
  import opened Prelude
  import opened Text
  import opened Socks4

  /** `Crash` stands for reading a word that the line does not have. */
  datatype Verdict = Accept | Reject | Crash

  const BLANKS := " \t\n\U{0B}\U{0C}\r"

  /** The text before the first `c`, or all of it. */
  function Cut(s: string, c: char): string {
    s[..WordLength(s, [c])]
  }

  /** substr(0, n). */
  function Head(s: string, n: nat): string {
    if n <= |s| then s[..n] else s
  }

  function LineWords(line: string): seq<string> {
    Words(Cut(line, '#'), BLANKS)
  }

  /** What one line does: nothing, an accept, or an access out of range. */
  function LineVerdict(ws: seq<string>, cd: string, ip: string): Verdict {
    if ws == [] then Crash
    else if ws[0] != "permit" then Reject
    else if |ws| < 2 then Crash
    else if ws[1] != cd then Reject
    else if |ws| < 3 then Crash
    else if Head(ip, |Cut(ws[2], '*')|) == Cut(ws[2], '*') then Accept else Reject
  }

  /** The lines in order, up to the first that decides. */
  function Decide(conf: seq<string>, cd: string, ip: string): Verdict {
    if conf == [] then Reject
    else
      var v := LineVerdict(LineWords(conf[0]), cd, ip);
      if v.Reject? then Decide(conf[1..], cd, ip) else v
  }

  /** find(c) followed by substr(0, pos). */
  method CutAt(s: string, c: char) returns (t: string)
    ensures t == Cut(s, c)
  {
    var pos := 0;
    while pos < |s| && s[pos] != c
      invariant pos <= |s| && forall i :: 0 <= i < pos ==> s[i] != c
    {
      pos := pos + 1;
    }
    WordLengthIs(s, [c], pos);
    t := s[..pos];
  }

  /** firewall(); `conf` is None when the file cannot be opened. */
  method Permits(conf: Option<seq<string>>, cd: string, ip: string) returns (v: Verdict)
    ensures v == if conf.None? then Reject else Decide(conf.value, cd, ip)
  {
    if conf.None? {
      return Reject;
    }
    var lines := conf.value;
    assert lines[0..] == lines;
    for i := 0 to |lines|
      invariant Decide(lines[i..], cd, ip) == Decide(lines, cd, ip)
    {
      hide Head, Cut, Words;
      assert lines[i..][0] == lines[i] && lines[i..][1..] == lines[i + 1..];
      var line := CutAt(lines[i], '#');
      var socks := Tokenize(line, BLANKS);
      if socks == [] {
        return Crash;
      }
      if socks[0] == "permit" {
        if |socks| < 2 {
          return Crash;
        }
        if socks[1] == cd {
          if |socks| < 3 {
            return Crash;
          }
          var pattern := CutAt(socks[2], '*');
          if Head(ip, |pattern|) == pattern {
            return Accept;
          }
        }
      }
    }
    return Reject;
  }

  // ---------- What a rule means ----------

  /** A rule for a command, with the octets before its wildcards. */
  datatype Rule = Rule(cd: string, octets: seq<Octet>)

  type Address = a: seq<Octet> | |a| == 4 witness [0, 0, 0, 0]

  function AddressText(a: Address): string {
    Dotted(a[0], a[1], a[2], a[3])
  }

  function Stars(k: nat): string
    requires k > 0
  {
    if k == 1 then "*" else "*." + Stars(k - 1)
  }

  /** `1.2.*.*`, and for four octets the full address. */
  function Pattern(octets: seq<Octet>): string
    requires |octets| <= 4
  {
    if |octets| == 4 then AddressText(octets) else Prefix(octets) + Stars(4 - |octets|)
  }

  /** The rule agrees with the address in every octet that it gives. */
  predicate Matches(r: Rule, cd: string, a: Address)
    requires |r.octets| <= 4
  {
    r.cd == cd && forall i :: 0 <= i < |r.octets| ==> r.octets[i] == a[i]
  }

  lemma HeadIsPrefix(ip: string, p: string)
    ensures Head(ip, |p|) == p <==> p <= ip
  {
    if p <= ip {
      assert ip[..|p|] == p;
    }
  }

  /** The address as octets each followed by a dot, then the rest. */
  function Tail(a: Address, k: nat): string
    requires k <= 3
  {
    match k
    case 0 => AddressText(a)
    case 1 => ToString(a[1]) + "." + (ToString(a[2]) + "." + ToString(a[3]))
    case 2 => ToString(a[2]) + "." + ToString(a[3])
    case 3 => ToString(a[3])
  }

  lemma TailStep(a: Address, k: nat)
    requires k < 3
    ensures Tail(a, k) == ToString(a[k]) + "." + Tail(a, k + 1)
  {
    var x, y, z, w := ToString(a[0]), ToString(a[1]), ToString(a[2]), ToString(a[3]);
    assert x + "." + y + "." + z + "." + w == x + "." + (y + "." + (z + "." + w));
  }

  predicate Same(octets: seq<Octet>, a: Address, k: nat)
    requires k + |octets| <= 4
  {
    forall i :: 0 <= i < |octets| ==> octets[i] == a[k + i]
  }

  lemma SameFirst(octets: seq<Octet>, a: Address, k: nat)
    requires octets != [] && k + |octets| <= 4
    ensures Same(octets, a, k) <==> octets[0] == a[k] && Same(octets[1..], a, k + 1)
  {
    if Same(octets, a, k) {
      assert octets[0] == a[k + 0];
      forall i | 0 <= i < |octets[1..]| ensures octets[1..][i] == a[k + 1 + i] {
        assert octets[i + 1] == a[k + (i + 1)];
      }
    }
    if octets[0] == a[k] && Same(octets[1..], a, k + 1) {
      forall i | 0 <= i < |octets| ensures octets[i] == a[k + i] {
        if i > 0 {
          assert octets[1..][i - 1] == a[k + 1 + (i - 1)];
        }
      }
    }
  }

  /** Comparing text is comparing octets, from any octet on. */
  lemma {:induction false} PrefixMatches(octets: seq<Octet>, a: Address, k: nat)
    requires k + |octets| <= 3
    ensures Prefix(octets) <= Tail(a, k) <==> Same(octets, a, k)
  {
    if octets != [] {
      hide Tail, Prefix, ToString, Same;
      TailStep(a, k);
      PrefixFirst(octets);
      NumberAndDot(octets[0], a[k], Prefix(octets[1..]), Tail(a, k + 1));
      PrefixMatches(octets[1..], a, k + 1);
      SameFirst(octets, a, k);
    }
  }

  lemma PrefixFirst(octets: seq<Octet>)
    requires octets != []
    ensures Prefix(octets) == ToString(octets[0]) + "." + Prefix(octets[1..])
  {
  }

  lemma WholeAddress(a: Address)
    ensures Tail(a, 0) == AddressText(a)
  {
  }

  // ---------- Four octets ----------

  /** The last octet starts with the rule's last octet, digit for digit. */
  predicate Extends(m: nat, n: nat) {
    n == m || (n >= 10 && n / 10 == m) || (n >= 100 && n / 100 == m)
  }

  lemma NumberPrefix(m: nat, n: nat)
    ensures ToString(m) <= ToString(n) <==> m == n || (n >= 10 && ToString(m) <= ToString(n / 10))
  {
    var x, y := ToString(m), ToString(n);
    if x <= y {
      if |x| == |y| {
        assert x == y;
        ToStringInjective(m, n);
      } else {
        ToStringLength(n);
        assert y == ToString(n / 10) + [Digit(n % 10)];
        assert x == y[..|x|] == ToString(n / 10)[..|x|];
      }
    }
    if n >= 10 && x <= ToString(n / 10) {
      assert x == ToString(n / 10)[..|x|] == y[..|x|];
    }
  }

  lemma OctetPrefix(m: Octet, n: Octet)
    ensures ToString(m) <= ToString(n) <==> Extends(m, n)
  {
    NumberPrefix(m, n);
    if n >= 10 {
      NumberPrefix(m, n / 10);
      if n >= 100 {
        NumberPrefix(m, n / 10 / 10);
        assert n / 10 / 10 == n / 100;
      }
    }
  }

  /** A rule that gives all four octets accepts every address with the same first three
      whose last octet extends the rule's. */
  lemma FullRule(o: Address, cd: string, a: Address)
    ensures LineVerdict(["permit", cd, Pattern(o)], cd, AddressText(a)) == Accept <==> o[..3] == a[..3] && Extends(o[3], a[3])
  {
    var s, t := AddressText(o), AddressText(a);
    AddressCharacters(o);
    WordLengthIs(s, "*", |s|);
    assert s[..|s|] == s;
    HeadIsPrefix(t, s);
    FullPrefix(o, a);
  }

  lemma AddressCharacters(a: Address)
    ensures forall i :: 0 <= i < |AddressText(a)| ==> AddressText(a)[i] != '*'
  {
  }

  lemma FullPrefix(o: Address, a: Address)
    ensures AddressText(o) <= AddressText(a) <==> o[..3] == a[..3] && Extends(o[3], a[3])
  {
    hide ToString, AddressText, Extends;
    WholeAddress(o);
    WholeAddress(a);
    TailStep(o, 0);
    TailStep(o, 1);
    TailStep(o, 2);
    TailStep(a, 0);
    TailStep(a, 1);
    TailStep(a, 2);
    NumberAndDot(o[0], a[0], Tail(o, 1), Tail(a, 1));
    NumberAndDot(o[1], a[1], Tail(o, 2), Tail(a, 2));
    NumberAndDot(o[2], a[2], Tail(o, 3), Tail(a, 3));
    OctetPrefix(o[3], a[3]);
  }

  // ---------- Lines and rules ----------

  lemma {:induction false} PrefixHasNoStar(octets: seq<Octet>)
    ensures forall i :: 0 <= i < |Prefix(octets)| ==> Prefix(octets)[i] != '*'
  {
    if octets != [] {
      PrefixHasNoStar(octets[1..]);
      PrefixFirst(octets);
    }
  }

  lemma CutOfPattern(octets: seq<Octet>)
    requires |octets| <= 3
    ensures Cut(Pattern(octets), '*') == Prefix(octets)
  {
    var s := Pattern(octets);
    PrefixHasNoStar(octets);
    assert Stars(4 - |octets|)[0] == '*';
    WordLengthIs(s, "*", |Prefix(octets)|);
  }

  /** A line that gives a rule, or that is no `permit` line. */
  ghost predicate Gives(line: string, rule: Option<Rule>) {
    var ws := LineWords(line);
    && ws != []
    && match rule
       case None => ws[0] != "permit"
       case Some(r) => |ws| >= 3 && ws[0] == "permit" && ws[1] == r.cd && |r.octets| <= 4 && ws[2] == Pattern(r.octets)
  }

  /** What the comparison of texts makes of a rule: octet by octet, except that a last
      octet that is given may be extended. */
  predicate Admits(r: Rule, cd: string, a: Address)
    requires |r.octets| <= 4
  {
    if |r.octets| == 4 then r.cd == cd && r.octets[..3] == a[..3] && Extends(r.octets[3], a[3]) else Matches(r, cd, a)
  }

  ghost predicate RuleAdmits(rule: Option<Rule>, cd: string, a: Address) {
    rule.Some? && |rule.value.octets| <= 4 && Admits(rule.value, cd, a)
  }

  ghost predicate RuleMatches(rule: Option<Rule>, cd: string, a: Address) {
    rule.Some? && |rule.value.octets| <= 4 && Matches(rule.value, cd, a)
  }

  lemma LineMeans(line: string, rule: Option<Rule>, cd: string, a: Address)
    requires Gives(line, rule)
    ensures LineVerdict(LineWords(line), cd, AddressText(a)) == if RuleAdmits(rule, cd, a) then Accept else Reject
  {
    if rule.Some? {
      var octets := rule.value.octets;
      hide LineWords, Cut, Pattern, Head, AddressText, Tail, Extends;
      if |octets| == 4 {
        FullRule(octets, cd, a);
      } else {
        CutOfPattern(octets);
        HeadIsPrefix(AddressText(a), Prefix(octets));
        WholeAddress(a);
        PrefixMatches(octets, a, 0);
        assert forall i :: 0 <= i < |octets| ==> a[0 + i] == a[i];
      }
    }
  }

  /** The server accepts exactly when some rule of the same command admits the address,
      for any list of rules with wildcards or without. */
  lemma {:induction false} AcceptsExactlyMatches(conf: seq<string>, rules: seq<Option<Rule>>, cd: string, a: Address)
    requires |conf| == |rules| && forall i :: 0 <= i < |conf| ==> Gives(conf[i], rules[i])
    ensures Decide(conf, cd, AddressText(a)) ==
      if exists i :: 0 <= i < |rules| && RuleAdmits(rules[i], cd, a) then Accept else Reject
  {
    hide Gives, RuleAdmits, AddressText, LineWords, LineVerdict;
    if conf != [] {
      LineMeans(conf[0], rules[0], cd, a);
      assert forall i :: 0 <= i < |conf[1..]| ==> conf[1..][i] == conf[i + 1] && rules[1..][i] == rules[i + 1];
      AcceptsExactlyMatches(conf[1..], rules[1..], cd, a);
      if i :| 0 <= i < |rules| && RuleAdmits(rules[i], cd, a) {
        assert i > 0 ==> rules[1..][i - 1] == rules[i];
      }
      if j :| 0 <= j < |rules[1..]| && RuleAdmits(rules[1..][j], cd, a) {
        assert rules[j + 1] == rules[1..][j];
      }
    }
  }

  function RuleText(r: Rule): string
    requires |r.octets| <= 4
  {
    Join(["permit", r.cd, Pattern(r.octets)], " ")
  }

  /** No separator and no comment sign. */
  predicate IsPlain(w: string) {
    IsWord(w, BLANKS) && forall i :: 0 <= i < |w| ==> w[i] != '#'
  }

  lemma {:induction false} PatternIsPlain(octets: seq<Octet>)
    requires |octets| <= 4
    ensures IsPlain(Pattern(octets))
  {
    var p := Pattern(octets);
    assert forall c: char :: IsDigit(c) || c == '.' || c == '*' ==> c !in BLANKS && c != '#';
    if |octets| < 4 {
      PrefixCharacters(octets);
      StarsCharacters(4 - |octets|);
    }
    assert forall i :: 0 <= i < |p| ==> IsDigit(p[i]) || p[i] == '.' || p[i] == '*';
  }

  lemma {:induction false} PrefixCharacters(octets: seq<Octet>)
    ensures forall i :: 0 <= i < |Prefix(octets)| ==> IsDigit(Prefix(octets)[i]) || Prefix(octets)[i] == '.'
  {
    if octets != [] {
      PrefixCharacters(octets[1..]);
      PrefixFirst(octets);
    }
  }

  lemma {:induction false} StarsCharacters(k: nat)
    requires k > 0
    ensures forall i :: 0 <= i < |Stars(k)| ==> Stars(k)[i] == '*' || Stars(k)[i] == '.'
  {
    if k > 1 {
      StarsCharacters(k - 1);
    }
  }

  /** The words of a line, whatever blanks are around them and whatever comment follows. */
  lemma WordsOfLine(s: string, ws: seq<string>, gaps: seq<string>, comment: string)
    requires IsSplit(s, ws, gaps, " \t\n\U{0B}\U{0C}\r")
    requires (forall i :: 0 <= i < |ws| ==> '#' !in ws[i]) && (comment == "" || comment[0] == '#')
    ensures LineWords(s + comment) == ws
  {
    NoComment(ws, gaps, BLANKS);
    WordLengthIs(s + comment, "#", |s|);
    assert (s + comment)[..|s|] == s;
    WordsOfWeave(s, ws, gaps, BLANKS);
  }

  lemma {:induction false} NoComment(ws: seq<string>, gaps: seq<string>, seps: string)
    requires |gaps| == |ws| + 1 && '#' !in seps && forall i :: 0 <= i < |ws| ==> '#' !in ws[i]
    requires forall i :: 0 <= i < |gaps| ==> forall k :: 0 <= k < |gaps[i]| ==> gaps[i][k] in seps
    ensures '#' !in Weave(ws, gaps)
  {
    assert '#' !in gaps[0];
    if ws != [] {
      assert forall i :: 0 <= i < |gaps[1..]| ==> gaps[1..][i] == gaps[i + 1];
      assert forall i :: 0 <= i < |ws[1..]| ==> ws[1..][i] == ws[i + 1];
      NoComment(ws[1..], gaps[1..], seps);
    }
  }

  /** A printed rule gives that rule, also with a comment behind it. */
  lemma PrintedRule(r: Rule, comment: string)
    requires |r.octets| <= 4 && IsPlain(r.cd) && (comment == "" || comment[0] == '#')
    ensures Gives(RuleText(r) + comment, Some(r))
  {
    var ws, s := ["permit", r.cd, Pattern(r.octets)], RuleText(r);
    PatternIsPlain(r.octets);
    JoinPlain(r.cd, Pattern(r.octets));
    WordLengthIs(s + comment, "#", |s|);
    assert (s + comment)[..|s|] == s;
    assert IsWord("permit", BLANKS);
    WordsOfJoin(ws, ' ', BLANKS);
  }

  lemma JoinPlain(cd: string, pattern: string)
    requires IsPlain(cd) && IsPlain(pattern)
    ensures forall i :: 0 <= i < |Join(["permit", cd, pattern], " ")| ==> Join(["permit", cd, pattern], " ")[i] != '#'
  {
    assert Join(["permit", cd, pattern][1..][1..], " ") == pattern;
    assert Join(["permit", cd, pattern][1..], " ") == cd + " " + pattern;
    assert Join(["permit", cd, pattern], " ") == "permit" + " " + (cd + " " + pattern);
  }

  // ---------- Where the comparison is not octet-wise ----------

  /** It is octet-wise exactly when the last octet does not properly extend the rule's. */
  lemma FullRuleIsExactWhen(o: Address, cd: string, a: Address)
    ensures
      (LineVerdict(["permit", cd, Pattern(o)], cd, AddressText(a)) == Accept <==> Matches(Rule(cd, o), cd, a))
      <==> !(o[..3] == a[..3] && o[3] != a[3] && Extends(o[3], a[3]))
  {
    FullRule(o, cd, a);
    hide LineVerdict, AddressText, Pattern, Extends;
    assert Extends(o[3], o[3]) by { ExtendsItself(o[3]); }
    assert o == o[..3] + [o[3]] && a == a[..3] + [a[3]];
    assert Matches(Rule(cd, o), cd, a) <==> o == a;
  }

  lemma ExtendsItself(n: nat)
    ensures Extends(n, n)
  {
  }

  /** The last octet of the address properly extends that of a rule with all four. */
  ghost predicate Overreaches(rule: Option<Rule>, cd: string, a: Address) {
    && rule.Some? && |rule.value.octets| == 4 && rule.value.cd == cd
    && rule.value.octets[..3] == a[..3] && rule.value.octets[3] != a[3] && Extends(rule.value.octets[3], a[3])
  }

  lemma AdmitsIs(rule: Option<Rule>, cd: string, a: Address)
    ensures RuleAdmits(rule, cd, a) <==> RuleMatches(rule, cd, a) || Overreaches(rule, cd, a)
  {
    if rule.Some? && |rule.value.octets| == 4 {
      var o := rule.value.octets;
      ExtendsItself(o[3]);
      assert o == o[..3] + [o[3]] && a == a[..3] + [a[3]];
      assert Matches(rule.value, cd, a) <==> rule.value.cd == cd && o == a;
      hide Extends;
    }
  }

  /** A list of rules is octet-wise exactly when no rule overreaches for this address, or
      another one matches it anyway. */
  lemma ListIsExactWhen(conf: seq<string>, rules: seq<Option<Rule>>, cd: string, a: Address)
    requires |conf| == |rules| && forall i :: 0 <= i < |conf| ==> Gives(conf[i], rules[i])
    ensures
      (Decide(conf, cd, AddressText(a)) == Accept <==> exists i :: 0 <= i < |rules| && RuleMatches(rules[i], cd, a))
      <==>
      ((exists i :: 0 <= i < |rules| && RuleMatches(rules[i], cd, a)) ||
       !(exists i :: 0 <= i < |rules| && Overreaches(rules[i], cd, a)))
  {
    AcceptsExactlyMatches(conf, rules, cd, a);
    hide Gives, RuleAdmits, RuleMatches, Overreaches, AddressText, Decide;
    forall i | 0 <= i < |rules|
      ensures RuleAdmits(rules[i], cd, a) <==> RuleMatches(rules[i], cd, a) || Overreaches(rules[i], cd, a)
    {
      AdmitsIs(rules[i], cd, a);
    }
  }

  /** A rule for 1.2.3.4 also lets 1.2.3.40 through. */
  lemma OneAddressAdmitsAnother()
    ensures LineVerdict(["permit", "c", Pattern([1, 2, 3, 4])], "c", AddressText([1, 2, 3, 40])) == Accept
    ensures !Matches(Rule("c", [1, 2, 3, 4]), "c", [1, 2, 3, 40])
  {
    FullRule([1, 2, 3, 4], "c", [1, 2, 3, 40]);
    hide LineVerdict, AddressText, Pattern;
    assert Extends(4, 40);
    assert [1, 2, 3, 4][..3] == [1, 2, 3, 40][..3];
    assert Rule("c", [1, 2, 3, 4]).octets[3] != [1, 2, 3, 40][3];
  }

  // ---------- Lines that go wrong ----------

  /** Blank up to its comment, or to its end. */
  predicate IsBlank(line: string) {
    forall i :: 0 <= i < |Cut(line, '#')| ==> Cut(line, '#')[i] in BLANKS
  }

  /** A line that is read out of range for this command: a blank one, `permit` alone, or
      `permit` and the command without a pattern. */
  predicate IsCutShort(line: string, cd: string) {
    IsBlank(line) || LineWords(line) == ["permit"] || LineWords(line) == ["permit", cd]
  }

  /** A complete rule for the command whose pattern the address starts with. */
  predicate Grants(line: string, cd: string, ip: string) {
    var ws := LineWords(line);
    |ws| >= 3 && ws[0] == "permit" && ws[1] == cd && Cut(ws[2], '*') <= ip
  }

  lemma LineDoes(line: string, cd: string, ip: string)
    ensures LineVerdict(LineWords(line), cd, ip) == Crash <==> IsCutShort(line, cd)
    ensures LineVerdict(LineWords(line), cd, ip) == Accept <==> Grants(line, cd, ip)
    ensures !(IsCutShort(line, cd) && Grants(line, cd, ip))
  {
    NoWords(Cut(line, '#'), BLANKS);
    var ws := LineWords(line);
    if |ws| >= 3 {
      HeadIsPrefix(ip, Cut(ws[2], '*'));
    }
    hide Cut, Words, Head;
  }

  predicate CutShortFirst(conf: seq<string>, cd: string, ip: string) {
    exists n :: 0 <= n < |conf| && IsCutShort(conf[n], cd) && forall i :: 0 <= i < n ==> !Grants(conf[i], cd, ip)
  }

  predicate GrantedFirst(conf: seq<string>, cd: string, ip: string) {
    exists n :: 0 <= n < |conf| && Grants(conf[n], cd, ip) && forall i :: 0 <= i < n ==> !IsCutShort(conf[i], cd)
  }

  /** A request goes without a verdict exactly when a line that is read out of range is
      reached before any line that accepts; it is accepted exactly when an accepting line
      is reached before any line that is read out of range. */
  lemma {:induction false} CrashesExactly(conf: seq<string>, cd: string, ip: string)
    ensures Decide(conf, cd, ip) == Crash <==> CutShortFirst(conf, cd, ip)
    ensures Decide(conf, cd, ip) == Accept <==> GrantedFirst(conf, cd, ip)
  {
    if conf != [] {
      LineDoes(conf[0], cd, ip);
      CutShortNext(conf, cd, ip);
      GrantedNext(conf, cd, ip);
      hide LineVerdict, LineWords, IsCutShort, Grants, CutShortFirst, GrantedFirst;
      CrashesExactly(conf[1..], cd, ip);
    }
  }

  lemma CutShortNext(conf: seq<string>, cd: string, ip: string)
    requires conf != []
    ensures CutShortFirst(conf, cd, ip) <==> IsCutShort(conf[0], cd) || (!Grants(conf[0], cd, ip) && CutShortFirst(conf[1..], cd, ip))
  {
    hide IsCutShort, Grants;
    var rest := conf[1..];
    assert forall i :: 0 <= i < |rest| ==> rest[i] == conf[i + 1];
    if n :| 0 <= n < |conf| && IsCutShort(conf[n], cd) && forall i :: 0 <= i < n ==> !Grants(conf[i], cd, ip) {
      assert n > 0 ==> IsCutShort(rest[n - 1], cd) && !Grants(conf[0], cd, ip);
    }
    if n :| 0 <= n < |rest| && IsCutShort(rest[n], cd) && forall i :: 0 <= i < n ==> !Grants(rest[i], cd, ip) {
      assert IsCutShort(conf[n + 1], cd);
      assert forall i :: 1 <= i < n + 1 ==> conf[i] == rest[i - 1];
    }
  }

  lemma GrantedNext(conf: seq<string>, cd: string, ip: string)
    requires conf != []
    ensures GrantedFirst(conf, cd, ip) <==> Grants(conf[0], cd, ip) || (!IsCutShort(conf[0], cd) && GrantedFirst(conf[1..], cd, ip))
  {
    hide IsCutShort, Grants;
    var rest := conf[1..];
    assert forall i :: 0 <= i < |rest| ==> rest[i] == conf[i + 1];
    if n :| 0 <= n < |conf| && Grants(conf[n], cd, ip) && forall i :: 0 <= i < n ==> !IsCutShort(conf[i], cd) {
      assert n > 0 ==> Grants(rest[n - 1], cd, ip) && !IsCutShort(conf[0], cd);
    }
    if n :| 0 <= n < |rest| && Grants(rest[n], cd, ip) && forall i :: 0 <= i < n ==> !IsCutShort(rest[i], cd) {
      assert Grants(conf[n + 1], cd, ip);
      assert forall i :: 1 <= i < n + 1 ==> conf[i] == rest[i - 1];
    }
  }

  /** A request whose command is neither CONNECT nor BIND is never accepted. */
  lemma {:induction false} UnknownNeverAccepted(conf: seq<string>, ip: string)
    ensures Decide(conf, "", ip) != Accept
  {
    if conf != [] {
      WordsAreWords(Cut(conf[0], '#'), BLANKS);
      UnknownNeverAccepted(conf[1..], ip);
    }
  }
}

/** Document names of Super Borg jobs (controller/gateway/jobs.go). */
module JobNames {
  import opened Ordering
  import opened Text

  const NAME_MAX: int := 40

  predicate IsNameChar(c: char) { 'a' <= c <= 'z' || '0' <= c <= '9' || c == '_' || c == '-' }

  function FoldChar(c: char): char
  {
    if 'A' <= c <= 'Z' then c - 'A' + 'a' else if c == ' ' then '_' else c
  }

  /** Lower case, blanks as underscores, everything else dropped. */
  function Fold(s: string): (r: string)
    ensures forall i :: 0 <= i < |r| ==> IsNameChar(r[i])
  {
    if s == [] then []
    else
      var c := FoldChar(s[0]);
      (if IsNameChar(c) then [c] else []) + Fold(s[1..])
  }

  /** docName, for ASCII. */
  function DocName(s: string): (r: string)
    ensures IsName(r)
  {
    var f := Fold(TrimSpace(s));
    if |f| > NAME_MAX then f[..NAME_MAX] else f
  }

  predicate IsName(s: string) { |s| <= NAME_MAX && forall i :: 0 <= i < |s| ==> IsNameChar(s[i]) }

  lemma {:induction false} FoldKeeps(s: string)
    requires forall i :: 0 <= i < |s| ==> IsNameChar(s[i])
    ensures Fold(s) == s
  {
    if s != [] {
      FoldKeeps(s[1..]);
      assert FoldChar(s[0]) == s[0];
      assert [s[0]] + s[1..] == s;
    }
  }

  lemma {:induction false} TrimKeeps(s: string)
    requires forall i :: 0 <= i < |s| ==> IsNameChar(s[i])
    ensures TrimSpace(s) == s
  {
  }

  /** Normalising a name of the right characters only cuts it: it can be looked
      up again exactly when it is short enough. */
  lemma DocNameOf(s: string)
    requires forall i :: 0 <= i < |s| ==> IsNameChar(s[i])
    ensures DocName(s) == if |s| > NAME_MAX then s[..NAME_MAX] else s
    ensures DocName(s) == s <==> |s| <= NAME_MAX
  {
    TrimKeeps(s);
    FoldKeeps(s);
  }

  /** Stored names are normal: looking one up finds it. */
  lemma DocNameTwice(s: string)
    ensures DocName(DocName(s)) == DocName(s)
  {
    DocNameOf(DocName(s));
  }

  /** A document is found in any capitalisation of its name. */
  lemma CaseIsIgnored(s: string)
    ensures DocName(ToUpper(s)) == DocName(s)
  {
    TrimUpper(s);
    FoldUpper(TrimSpace(s));
  }

  lemma {:induction false} FoldUpper(s: string)
    ensures Fold(ToUpper(s)) == Fold(s)
  {
    if s != [] {
      FoldUpper(s[1..]);
      assert ToUpper(s)[1..] == ToUpper(s[1..]);
    }
  }

  lemma {:induction false} UpperAt(s: string)
    ensures |ToUpper(s)| == |s| && forall i :: 0 <= i < |s| ==> ToUpper(s)[i] == ToUpperChar(s[i])
  {
    if s != [] { UpperAt(s[1..]); }
  }

  lemma UpperInit(s: string)
    requires s != []
    ensures |ToUpper(s)| == |s| && ToUpper(s)[..|s| - 1] == ToUpper(s[..|s| - 1]) && ToUpper(s)[1..] == ToUpper(s[1..])
  {
    UpperAt(s);
    UpperAt(s[..|s| - 1]);
    UpperAt(s[1..]);
  }

  lemma {:induction false} LeftUpper(s: string)
    ensures TrimLeft(ToUpper(s)) == ToUpper(TrimLeft(s))
  {
    if s != [] {
      UpperInit(s);
      LeftUpper(s[1..]);
    }
  }

  lemma {:induction false} RightUpper(s: string)
    ensures TrimRight(ToUpper(s)) == ToUpper(TrimRight(s))
  {
    if s != [] {
      UpperAt(s);
      UpperInit(s);
      RightUpper(s[..|s| - 1]);
    }
  }

  lemma TrimUpper(s: string)
    ensures TrimSpace(ToUpper(s)) == ToUpper(TrimSpace(s))
  {
    LeftUpper(s);
    RightUpper(TrimLeft(s));
  }

  // ----- numbered names ---------------------------------------------------------------

  function Digit(n: nat): char
    requires n < 10
  {
    "0123456789"[n]
  }

  function Digits(n: nat): (s: string)
    ensures s != [] && forall i :: 0 <= i < |s| ==> IsNameChar(s[i])
  {
    if n < 10 then [Digit(n)] else Digits(n / 10) + [Digit(n % 10)]
  }

  lemma {:induction false} DigitsInjective(a: nat, b: nat)
    requires Digits(a) == Digits(b)
    ensures a == b
  {
    if a >= 10 && b >= 10 {
      var x, y := Digits(a / 10), Digits(b / 10);
      assert Digits(a)[..|x|] == x && Digits(b)[..|y|] == y;
      assert Digits(a)[|x|] == Digit(a % 10) && Digits(b)[|y|] == Digit(b % 10);
      DigitsInjective(a / 10, b / 10);
    }
  }

  /** The number a string of digits stands for. */
  ghost function Value(s: string): int
  {
    if s == [] then 0 else 10 * Value(s[..|s| - 1]) + (s[|s| - 1] as int - '0' as int)
  }

  lemma {:induction false} DigitsAreDecimal(n: nat)
    ensures Value(Digits(n)) == n && forall c :: c in Digits(n) ==> '0' <= c <= '9'
  {
    var last := Digit(n % 10);
    assert last as int == '0' as int + n % 10 && '0' <= last <= '9';
    if n < 10 {
      assert Value([]) == 0 && [last][..0] == [];
    } else {
      DigitsAreDecimal(n / 10);
      var init := Digits(n / 10);
      assert Digits(n) == init + [last];
      assert (init + [last])[..|init|] == init;
    }
  }

  function Numbered(base: string, n: nat): string { base + "_" + Digits(n) }

  lemma NumberedInjective(base: string, a: nat, b: nat)
    requires Numbered(base, a) == Numbered(base, b)
    ensures a == b
  {
    var p := base + "_";
    assert Numbered(base, a)[|p|..] == Digits(a) && Numbered(base, b)[|p|..] == Digits(b);
    DigitsInjective(a, b);
  }

  /** The name tried after n - 2 collisions. */
  function Attempt(base: string, n: nat): string { if n <= 2 then base else Numbered(base, n - 1) }

  lemma AttemptsDiffer(base: string, a: nat, b: nat)
    requires 2 <= a < b
    ensures Attempt(base, a) != Attempt(base, b)
  {
    if a == 2 {
      assert |Numbered(base, b - 1)| > |base|;
    } else if Attempt(base, a) == Attempt(base, b) {
      NumberedInjective(base, a - 1, b - 1);
    }
  }

  ghost function Tried(base: string, n: nat): set<string>
  {
    if n <= 2 then {} else Tried(base, n - 1) + {Attempt(base, n - 1)}
  }

  /** n - 2 collisions need as many different taken names. */
  lemma {:induction false} TriedAllDiffer(base: string, n: nat)
    requires n >= 2
    ensures |Tried(base, n)| == n - 2
    ensures forall x :: x in Tried(base, n) ==> exists k :: 2 <= k < n && x == Attempt(base, k)
  {
    hide Attempt;
    if n > 2 {
      TriedAllDiffer(base, n - 1);
      if Attempt(base, n - 1) in Tried(base, n - 1) {
        var k :| 2 <= k < n - 1 && Attempt(base, n - 1) == Attempt(base, k);
        AttemptsDiffer(base, k, n - 1);
      }
    }
  }

  /** The numbering loop of delegate: base, or base_2, base_3, … whichever is
      first free. It ends because the names it tries all differ. */
  method FirstFree(base: string, taken: seq<string>) returns (name: string, ghost n: nat)
    ensures n >= 2 && name == Attempt(base, n) && name !in taken
    ensures forall k :: 2 <= k < n ==> Attempt(base, k) in taken
  {
    FirstAttempt(base);
    hide Attempt, Numbered, Tried, Digits;
    name, n := base, 2;
    var next := 2;
    ghost var all := set x | x in taken;
    while name in taken
      invariant next == n >= 2 && name == Attempt(base, n) && Tried(base, n) <= all
      invariant forall k :: 2 <= k < n ==> Attempt(base, k) in taken
      decreases |all| + 2 - n
    {
      NextAttempt(base, n, all);
      name := Numbered(base, next);
      next, n := next + 1, n + 1;
    }
  }

  lemma FirstAttempt(base: string)
    ensures Attempt(base, 2) == base && Tried(base, 2) == {}
  {
  }

  lemma NextAttempt(base: string, n: nat, all: set<string>)
    requires n >= 2 && Tried(base, n) <= all && Attempt(base, n) in all
    ensures Attempt(base, n + 1) == Numbered(base, n) && Tried(base, n + 1) <= all && n - 1 <= |all|
  {
    hide Numbered;
    TriedAllDiffer(base, n + 1);
    SubsetSize(Tried(base, n + 1), all);
  }

  /** A numbered name is found again under its own name exactly when it is short
      enough; the results of parallel tasks with a 40-letter name are not. */
  lemma NumberedIsFound(base: string, n: nat)
    requires IsName(base)
    ensures DocName(Numbered(base, n)) == Numbered(base, n) <==> |base| + 1 + |Digits(n)| <= NAME_MAX
    ensures |base| == NAME_MAX ==> DocName(Numbered(base, n)) == base
  {
    var s := Numbered(base, n);
    assert forall i :: 0 <= i < |s| ==> IsNameChar(s[i]);
    DocNameOf(s);
  }
}

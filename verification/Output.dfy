/** Trimming and matching of program output (sandbox/src/sandbox.cpp, trim_output and outputs_match). */
module Output {
  predicate IsSpace(c: char) {
    c == ' ' || c == '\t' || c == '\r' || c == '\n'
  }

  predicate Blank(s: string) {
    forall c <- s :: IsSpace(c)
  }

  /** No whitespace at either end. */
  predicate Bare(s: string) {
    s == [] || (!IsSpace(s[0]) && !IsSpace(s[|s| - 1]))
  }

  /** s is `core` with whitespace around it, and `core` has none at either end. */
  ghost predicate IsCore(s: string, core: string) {
    Bare(core) && exists left, right :: Blank(left) && Blank(right) && s == left + core + right
  }

  function TrimLeft(s: string): string {
    if s != [] && IsSpace(s[0]) then TrimLeft(s[1..]) else s
  }

  function TrimRight(s: string): string {
    if s != [] && IsSpace(s[|s| - 1]) then TrimRight(s[..|s| - 1]) else s
  }

  function Trim(s: string): string {
    TrimRight(TrimLeft(s))
  }

  /** The two index loops. */
  method TrimOutput(s: string) returns (r: string)
    ensures r == Trim(s)
  {
    var start := 0;
    while start < |s| && IsSpace(s[start])
      invariant 0 <= start <= |s|
      invariant TrimLeft(s[start..]) == TrimLeft(s)
    {
      assert s[start..][1..] == s[start + 1..];
      start := start + 1;
    }
    assert TrimLeft(s) == s[start..];
    var end := |s|;
    assert s[start..end] == s[start..];
    while end > start && IsSpace(s[end - 1])
      invariant start <= end <= |s|
      invariant TrimRight(s[start..end]) == TrimRight(s[start..])
    {
      assert s[start..end][..end - start - 1] == s[start..end - 1];
      end := end - 1;
    }
    r := s[start..end];
  }

  predicate OutputsMatch(actual: string, expected: string) {
    Trim(actual) == Trim(expected)
  }

  lemma {:induction false} TrimLeftSplits(s: string) returns (left: string)
    ensures Blank(left) && s == left + TrimLeft(s)
    ensures TrimLeft(s) == [] || !IsSpace(TrimLeft(s)[0])
  {
    if s != [] && IsSpace(s[0]) {
      var rest := TrimLeftSplits(s[1..]);
      left := [s[0]] + rest;
    } else {
      left := [];
    }
  }

  lemma {:induction false} TrimRightSplits(s: string) returns (right: string)
    ensures Blank(right) && s == TrimRight(s) + right
    ensures TrimRight(s) == [] || !IsSpace(TrimRight(s)[|TrimRight(s)| - 1])
  {
    if s != [] && IsSpace(s[|s| - 1]) {
      var rest := TrimRightSplits(s[..|s| - 1]);
      right := rest + [s[|s| - 1]];
      assert s == s[..|s| - 1] + [s[|s| - 1]];
    } else {
      right := [];
    }
  }

  /** Blank text in front does not matter. */
  lemma {:induction false} TrimLeftDrops(left: string, s: string)
    requires Blank(left)
    ensures TrimLeft(left + s) == TrimLeft(s)
  {
    if left == [] {
      assert left + s == s;
    } else {
      assert (left + s)[1..] == left[1..] + s;
      TrimLeftDrops(left[1..], s);
    }
  }

  lemma {:induction false} TrimRightDrops(s: string, right: string)
    requires Blank(right)
    ensures TrimRight(s + right) == TrimRight(s)
  {
    if right == [] {
      assert s + right == s;
    } else {
      var n := |right| - 1;
      assert (s + right)[..|s + right| - 1] == s + right[..n];
      assert IsSpace(right[n]);
      TrimRightDrops(s, right[..n]);
    }
  }

  lemma TrimOfPadded(left: string, core: string, right: string)
    requires Blank(left) && Blank(right) && Bare(core)
    ensures Trim(left + core + right) == core
  {
    assert left + core + right == left + (core + right);
    TrimLeftDrops(left, core + right);
    if core == [] {
      assert core + right == right + [];
      TrimLeftDrops(right, []);
    } else {
      assert (core + right)[0] == core[0];
      TrimRightDrops(core, right);
    }
  }

  /** trim_output returns the core of its argument, that core is unique, and trimming is idempotent. */
  lemma TrimIsTheCore(s: string)
    ensures IsCore(s, Trim(s))
    ensures forall core :: IsCore(s, core) ==> core == Trim(s)
    ensures Trim(Trim(s)) == Trim(s)
  {
    var left := TrimLeftSplits(s);
    var right := TrimRightSplits(TrimLeft(s));
    assert s == left + Trim(s) + right;
    if Trim(s) != [] {
      assert TrimLeft(s)[0] == Trim(s)[0];
    }
    forall core | IsCore(s, core) ensures core == Trim(s) {
      var l, r :| Blank(l) && Blank(r) && s == l + core + r;
      TrimOfPadded(l, core, r);
    }
    assert Trim(s) == [] + Trim(s) + [];
    TrimOfPadded([], Trim(s), []);
  }

  /** b is a with one whitespace character added at one end. */
  ghost predicate Pads(a: string, b: string) {
    exists c :: (c == ' ' || c == '\t' || c == '\r' || c == '\n') && (b == [c] + a || b == a + [c])
  }

  /** Neighbours differ by one whitespace character at one end. */
  ghost predicate IsChain(chain: seq<string>) {
    && |chain| > 0
    && forall i :: 0 <= i < |chain| - 1 ==> Pads(chain[i], chain[i + 1]) || Pads(chain[i + 1], chain[i])
  }

  /** The least equivalence that contains Pads. */
  ghost predicate Equivalent(a: string, b: string) {
    exists chain :: IsChain(chain) && chain[0] == a && chain[|chain| - 1] == b
  }

  lemma PadsKeepTrim(a: string, b: string)
    requires Pads(a, b)
    ensures Trim(a) == Trim(b)
  {
    var c :| (c == ' ' || c == '\t' || c == '\r' || c == '\n') && (b == [c] + a || b == a + [c]);
    TrimIsTheCore(a);
    var l, r :| Blank(l) && Blank(r) && a == l + Trim(a) + r;
    if b == [c] + a {
      assert b == ([c] + l) + Trim(a) + r;
      TrimOfPadded([c] + l, Trim(a), r);
    } else {
      assert b == l + Trim(a) + (r + [c]);
      TrimOfPadded(l, Trim(a), r + [c]);
    }
  }

  lemma {:induction false} ChainKeepsTrim(chain: seq<string>)
    requires IsChain(chain)
    ensures Trim(chain[0]) == Trim(chain[|chain| - 1])
  {
    if |chain| > 1 {
      assert IsChain(chain[1..]);
      ChainKeepsTrim(chain[1..]);
      if Pads(chain[0], chain[1]) {
        PadsKeepTrim(chain[0], chain[1]);
      } else {
        PadsKeepTrim(chain[1], chain[0]);
      }
    }
  }

  lemma EquivalentStep(a: string, b: string, c: string)
    requires Equivalent(a, b) && (Pads(b, c) || Pads(c, b))
    ensures Equivalent(a, c)
  {
    var chain :| IsChain(chain) && chain[0] == a && chain[|chain| - 1] == b;
    var longer := chain + [c];
    assert IsChain(longer) && longer[0] == a && longer[|longer| - 1] == c;
  }

  /** From a, strip or add whitespace on the left of `s` one character at a time. */
  lemma {:induction false} ReachesLeft(a: string, left: string, s: string)
    requires Blank(left)
    ensures Equivalent(a, left + s) <==> Equivalent(a, s)
  {
    if left == [] {
      assert left + s == s;
    } else {
      ReachesLeft(a, left[1..], s);
      assert left + s == [left[0]] + (left[1..] + s);
      assert IsSpace(left[0]);
      assert Pads(left[1..] + s, left + s);
      if Equivalent(a, left + s) { EquivalentStep(a, left + s, left[1..] + s); }
      if Equivalent(a, left[1..] + s) { EquivalentStep(a, left[1..] + s, left + s); }
    }
  }

  lemma {:induction false} ReachesRight(a: string, s: string, right: string)
    requires Blank(right)
    ensures Equivalent(a, s + right) <==> Equivalent(a, s)
  {
    if right == [] {
      assert s + right == s;
    } else {
      var n := |right| - 1;
      ReachesRight(a, s, right[..n]);
      assert s + right == (s + right[..n]) + [right[n]];
      assert IsSpace(right[n]);
      assert Pads(s + right[..n], s + right);
      if Equivalent(a, s + right) { EquivalentStep(a, s + right, s + right[..n]); }
      if Equivalent(a, s + right[..n]) { EquivalentStep(a, s + right[..n], s + right); }
    }
  }

  lemma ReachesCore(a: string, s: string)
    ensures Equivalent(a, s) <==> Equivalent(a, Trim(s))
  {
    TrimIsTheCore(s);
    var l, r :| Blank(l) && Blank(r) && s == l + Trim(s) + r;
    ReachesRight(a, l + Trim(s), r);
    ReachesLeft(a, l, Trim(s));
  }

  /** Two outputs match exactly when one can be turned into the other by adding and removing single
      whitespace characters at the ends. */
  lemma MatchIsLeastEquivalence(actual: string, expected: string)
    ensures OutputsMatch(actual, expected) <==> Equivalent(actual, expected)
  {
    if Equivalent(actual, expected) {
      var chain :| IsChain(chain) && chain[0] == actual && chain[|chain| - 1] == expected;
      ChainKeepsTrim(chain);
    }
    assert Equivalent(actual, actual) by {
      assert IsChain([actual]) && [actual][0] == actual;
    }
    ReachesCore(actual, actual);
    ReachesCore(actual, expected);
  }
}

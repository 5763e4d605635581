/** The test-case loader (shared/src/problem_loader.cpp) over an arbitrary finite file system. */
module Loader {
  import opened Decimal
  import opened Verdicts

  /** A path that `stat` finds; `opens` says whether a stream on it can be opened. */
  datatype File = File(opens: bool, regular: bool, content: string)

  type FileSystem = map<string, File>

  const MAX_CASES := 10000

  function TestsDir(root: string, id: string): string {
    root + "/" + id + "/tests"
  }

  function MetaPath(root: string, id: string): string {
    root + "/" + id + "/meta.json"
  }

  function InPath(dir: string, i: nat): string {
    dir + "/" + Digits(i) + ".in"
  }

  function OutPath(dir: string, i: nat): string {
    dir + "/" + Digits(i) + ".out"
  }

  predicate Listed(fs: FileSystem, dir: string, i: nat) {
    InPath(dir, i) in fs
  }

  predicate Opens(fs: FileSystem, path: string) {
    path in fs && fs[path].opens
  }

  /** Both files of pair i can be read. */
  predicate Readable(fs: FileSystem, dir: string, i: nat) {
    Listed(fs, dir, i) && Opens(fs, InPath(dir, i)) && Opens(fs, OutPath(dir, i))
  }

  function Pair(fs: FileSystem, dir: string, i: nat): (string, string)
    requires Readable(fs, dir, i)
  {
    (fs[InPath(dir, i)].content, fs[OutPath(dir, i)].content)
  }

  /** `cases` is the longest run of readable pairs 0, 1, 2, ... of at most 10000. */
  predicate IsLongestPrefix(fs: FileSystem, dir: string, cases: seq<(string, string)>) {
    && |cases| <= MAX_CASES
    && (forall i :: 0 <= i < |cases| ==> Readable(fs, dir, i) && cases[i] == Pair(fs, dir, i))
    && (|cases| == MAX_CASES || !Readable(fs, dir, |cases|))
  }

  /** `count` is the length of the run of listed inputs 0.in, 1.in, ... */
  predicate IsListedCount(fs: FileSystem, dir: string, count: nat) {
    (forall i :: 0 <= i < count ==> Listed(fs, dir, i)) && !Listed(fs, dir, count)
  }

  lemma PathsOf(root: string, id: string, i: nat)
    ensures InPath(TestsDir(root, id), i) == root + "/" + id + "/tests/" + Digits(i) + ".in"
    ensures OutPath(TestsDir(root, id), i) == root + "/" + id + "/tests/" + Digits(i) + ".out"
  {
    hide Digits;
    assert "/tests" + "/" == "/tests/";
    assert root + "/" + id + "/tests" + "/" == root + "/" + id + "/tests/";
  }

  lemma PrefixContents(fs: FileSystem, root: string, id: string, cases: seq<(string, string)>)
    requires IsLongestPrefix(fs, TestsDir(root, id), cases)
    ensures forall i :: 0 <= i < |cases| ==>
      var stem := root + "/" + id + "/tests/" + Digits(i);
      && stem + ".in" in fs && cases[i].0 == fs[stem + ".in"].content
      && stem + ".out" in fs && cases[i].1 == fs[stem + ".out"].content
  {
    hide Digits, InPath, OutPath;
    forall i | 0 <= i < |cases|
      ensures var stem := root + "/" + id + "/tests/" + Digits(i);
        && stem + ".in" in fs && cases[i].0 == fs[stem + ".in"].content
        && stem + ".out" in fs && cases[i].1 == fs[stem + ".out"].content
    {
      PathsOf(root, id, i);
      assert Readable(fs, TestsDir(root, id), i);
    }
  }

  method LoadTestCases(fs: FileSystem, root: string, id: string) returns (cases: seq<(string, string)>)
    ensures IsLongestPrefix(fs, TestsDir(root, id), cases)
    ensures forall i :: 0 <= i < |cases| ==>
      var stem := root + "/" + id + "/tests/" + Digits(i);
      && stem + ".in" in fs && cases[i].0 == fs[stem + ".in"].content
      && stem + ".out" in fs && cases[i].1 == fs[stem + ".out"].content
  {
    var dir := TestsDir(root, id);
    cases := [];
    var i := 0;
    while i < MAX_CASES
      invariant 0 <= i <= MAX_CASES && |cases| == i
      invariant forall k :: 0 <= k < i ==> Readable(fs, dir, k) && cases[k] == Pair(fs, dir, k)
    {
      var input := InPath(dir, i);
      var output := OutPath(dir, i);
      if input !in fs {
        break;
      }
      if !Opens(fs, input) || !Opens(fs, output) {
        break;
      }
      cases := cases + [(fs[input].content, fs[output].content)];
      i := i + 1;
    }
    PrefixContents(fs, root, id, cases);
  }

  /** None when meta.json does not open; `parse` stands for reading the problem's record. */
  method GetProblem(fs: FileSystem, root: string, id: string, parse: string -> ProblemInfo)
    returns (problem: Option<ProblemInfo>)
    ensures problem.Some? <==> Opens(fs, MetaPath(root, id))
    ensures problem.Some? ==>
      exists cases :: IsLongestPrefix(fs, TestsDir(root, id), cases) &&
        problem.value == parse(fs[MetaPath(root, id)].content).(id := id, testCaseCount := |cases|)
  {
    var path := MetaPath(root, id);
    if !Opens(fs, path) {
      return None;
    }
    var cases := LoadTestCases(fs, root, id);
    problem := Some(parse(fs[path].content).(id := id, testCaseCount := |cases|));
  }

  /** The unbounded counting loop of list_problems; it ends because a finite file system cannot hold
      infinitely many distinct names. */
  method CountListed(fs: FileSystem, root: string, id: string) returns (count: nat)
    ensures IsListedCount(fs, TestsDir(root, id), count)
  {
    var dir := TestsDir(root, id);
    count := 0;
    ghost var seen: set<string> := {};
    while InPath(dir, count) in fs
      invariant forall i :: 0 <= i < count ==> Listed(fs, dir, i)
      invariant seen <= fs.Keys
      invariant forall path <- seen :: exists i :: 0 <= i < count && path == InPath(dir, i)
      decreases fs.Keys - seen
    {
      forall i | 0 <= i < count ensures InPath(dir, i) != InPath(dir, count) {
        InPathInjective(dir, i, count);
      }
      seen := seen + {InPath(dir, count)};
      count := count + 1;
    }
  }

  /** Numbered file names are pairwise different. */
  lemma InPathInjective(dir: string, a: nat, b: nat)
    ensures InPath(dir, a) == InPath(dir, b) ==> a == b
  {
    var p, q := InPath(dir, a), InPath(dir, b);
    assert p[|dir| + 1..|p| - 3] == Digits(a);
    assert q[|dir| + 1..|q| - 3] == Digits(b);
    if p == q {
      DigitsInjective(a, b);
    }
  }

  /** The prefix and the count are determined by the file system. */
  lemma LoadingIsDetermined(fs: FileSystem, dir: string, c1: seq<(string, string)>, c2: seq<(string, string)>)
    requires IsLongestPrefix(fs, dir, c1) && IsLongestPrefix(fs, dir, c2)
    ensures c1 == c2
  {
    assert |c1| == MAX_CASES || !Readable(fs, dir, |c1|);
    assert |c2| == MAX_CASES || !Readable(fs, dir, |c2|);
  }

  /** What list_problems counts is never below what get_problem counts, and the two agree exactly when
      at most 10000 inputs are listed and every listed pair opens. */
  lemma CountsAgree(fs: FileSystem, dir: string, cases: seq<(string, string)>, count: nat)
    requires IsLongestPrefix(fs, dir, cases) && IsListedCount(fs, dir, count)
    ensures |cases| <= count
    ensures |cases| == count <==>
            count <= MAX_CASES && forall i :: 0 <= i < count ==> Readable(fs, dir, i)
  {
    assert !Readable(fs, dir, count);
    assert |cases| == MAX_CASES || !Readable(fs, dir, |cases|);
  }

  /** "Both endpoints report the same number" fails for one input without an output: it is listed and not
      loaded. */
  lemma UnpairedInput(dir: string, content: string)
    ensures var fs := map[InPath(dir, 0) := File(true, true, content)];
            IsListedCount(fs, dir, 1) && IsLongestPrefix(fs, dir, [])
  {
    var fs: FileSystem := map[InPath(dir, 0) := File(true, true, content)];
    InPathInjective(dir, 0, 1);
    assert |OutPath(dir, 0)| == |InPath(dir, 0)| + 1;
    assert OutPath(dir, 0) !in fs && InPath(dir, 1) !in fs;
    assert Listed(fs, dir, 0) && !Readable(fs, dir, 0);
  }
}

/**
 * Callers of the stack that rely on the contracts alone: the LIFO order of
 * pushes and pops, the sessions of `Program.Main` (HomeWork4/Program.cs:104-132)
 * and a stack merged with itself.
 */
module StackClients {
  import opened Sequences
  import opened Stacks
  import opened StackExtensions

  /**
   * Pushes `xs` in order, then pops `|xs|` times: the pops return `xs`
   * reversed and the stack is back to what it held before.
   */
  method PushAllThenPopAll(s: Stack, xs: seq<string>) returns (popped: seq<string>)
    modifies s
    ensures popped == Reverse(xs)
    ensures s.Contents() == old(s.Contents())
  {
    ghost var base := s.Contents();
    for i := 0 to |xs|
      invariant s.Contents() == base + xs[..i]
    {
      s.Add(xs[i]);
    }
    popped := [];
    var j := |xs|;
    while j > 0
      invariant 0 <= j <= |xs|
      invariant s.Contents() == base + xs[..j]
      invariant popped == Reverse(xs[j..])
    {
      var r := s.Pop();
      assert (base + xs[..j])[..|base| + j - 1] == base + xs[..j - 1];
      assert r.value == xs[j - 1];
      PopOrder(xs, j);
      popped := popped + [r.value];
      j := j - 1;
    }
    assert xs[..0] == [] && base + [] == base;
  }

  /** One more value popped extends the reversed suffix by one. */
  lemma PopOrder(xs: seq<string>, j: nat)
    requires 0 < j <= |xs|
    ensures Reverse(xs[j..]) + [xs[j - 1]] == Reverse(xs[j - 1..])
  {
  }

  /** The session of pushes, pops and the failing pop on an emptied stack. */
  method PopScenario() {
    var s := new Stack(["a", "b", "c"]);
    var n := s.Size();
    assert n == 3 && s.Top() == Some("c");
    var r := s.Pop();
    assert r == Ok("c");
    n := s.Size();
    assert n == 2;
    s.Add("d");
    n := s.Size();
    assert n == 3 && s.Top() == Some("d");
    r := s.Pop();
    assert r == Ok("d");
    r := s.Pop();
    assert r == Ok("b");
    r := s.Pop();
    assert r == Ok("a");
    n := s.Size();
    assert n == 0 && s.Top() == None;
    r := s.Pop();
    assert r == Err(InvalidOperation);
  }

  /**
   * Merging [a, b, c] with [1, 2, 3] (top "3") leaves "1" on top, and the
   * merged stack keeps its contents.
   */
  method MergeScenario() {
    var s1 := new Stack(["a", "b", "c"]);
    var s2 := new Stack(["1", "2", "3"]);
    Merge(s1, s2);
    assert s1.Contents() == ["a", "b", "c", "3", "2", "1"];
    var n := s1.Size();
    assert n == 6 && s1.Top() == Some("1");
    n := s2.Size();
    assert n == 3 && s2.Top() == Some("3");
  }

  /** `Concat` of [a, b, c] and [1, 2, 3] also leaves "1" on top. */
  method ConcatScenario() {
    var a := new Stack(["a", "b", "c"]);
    var b := new Stack(["1", "2", "3"]);
    var c := Stack.Concat([a, b]);
    assert ContentsOf([a, b]) == [["a", "b", "c"], ["1", "2", "3"]];
    var blocks := [["a", "b", "c"], ["1", "2", "3"]];
    assert blocks[..1] == [blocks[0]] && blocks[..1][..0] == [];
    assert Reverse(blocks[0]) == ["c", "b", "a"] && Reverse(blocks[1]) == ["3", "2", "1"];
    assert c.Contents() == ["c", "b", "a", "3", "2", "1"];
    var n := c.Size();
    assert n == 6 && c.Top() == Some("1");
    assert a.Contents() == ["a", "b", "c"] && b.Contents() == ["1", "2", "3"];

    var e := Stack.Concat([]);
    var m := e.Size();
    assert m == 0 && e.Top() == None;
  }

  /**
   * `Concat` of [a, b, c], [1, 2, 3] and [А, Б, В] has 9 values, with the
   * bottom of the third input, "А", on top.
   */
  method ThreeStackConcatScenario() {
    var a := new Stack(["a", "b", "c"]);
    var b := new Stack(["1", "2", "3"]);
    var c := new Stack(["А", "Б", "В"]);
    var r := Stack.Concat([a, b, c]);
    var blocks := [["a", "b", "c"], ["1", "2", "3"], ["А", "Б", "В"]];
    assert ContentsOf([a, b, c]) == blocks;
    ConcatSize(blocks);
    assert TotalSize(blocks[..1][..0]) == 0 && blocks[..2][..1] == blocks[..1] && blocks[..3][..2] == blocks[..2];
    ConcatTop(blocks, 2);
    var n := r.Size();
    assert n == 9 && r.Top() == Some("А");
  }

  /**
   * Merging `s2` into `s1` leaves `s1` with the contents of a `Concat` of
   * `s1`'s own `Concat` and `s2`, taken before the merge; `s2` may be `s1`.
   */
  method MergeMatchesConcatOfConcat(s1: Stack, s2: Stack) returns (concatenated: Stack)
    modifies s1
    ensures fresh(concatenated)
    ensures s1.Contents() == concatenated.Contents()
  {
    var reversed := Stack.Concat([s1]);
    concatenated := Stack.Concat([reversed, s2]);
    ghost var c1, c2 := old(s1.Contents()), old(s2.Contents());
    assert ContentsOf([s1]) == [c1];
    assert ContentsOf([reversed, s2]) == [ConcatOf([c1]), c2];
    MergeIsConcatOfConcat(c1, c2);
    Merge(s1, s2);
  }

  /** A stack merged with itself ends as its contents followed by their reverse. */
  method SelfMergeScenario() {
    var s := new Stack(["x", "y"]);
    Merge(s, s);
    assert s.Contents() == ["x", "y", "y", "x"];
  }
}

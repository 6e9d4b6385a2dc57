/**
 * `StackExtensions.Merge` of HomeWork4/Program.cs: pushes another stack's
 * values onto a stack in place.
 */
module StackExtensions {
  import opened Sequences
  import opened Stacks

  /**
   * Walks `s2` from its top to its bottom and pushes every visited value onto
   * `s1`. `s2`'s top is read once, before anything is pushed, and nodes never
   * change, so `s1 == s2` is allowed: the walk follows the old chain while
   * new nodes go on top of it, and the stack ends up as its old contents
   * followed by their reverse.
   */
  method Merge(s1: Stack, s2: Stack)
    modifies s1
    ensures s1.Contents() == old(s1.Contents()) + Reverse(old(s2.Contents()))
    ensures s1 != s2 ==> s2.top == old(s2.top)
  {
    var current := s2.GetTop();
    ghost var before := s1.Contents();
    ghost var walked := Reverse(old(s2.Contents()));
    while current != Nil
      invariant s1.Contents() + Walk(current) == before + walked
      invariant s1 != s2 ==> s2.top == old(s2.top)
      decreases current
    {
      s1.Add(current.value);
      current := current.previous;
    }
  }

  /**
   * What `Merge` leaves in the receiver is what `Concat` builds from the
   * receiver's `Concat` with itself alone (its contents reversed) followed
   * by the merged stack: `s1.Merge(s2)` is `Concat(Concat(s1), s2)`.
   */
  lemma MergeIsConcatOfConcat(c1: seq<string>, c2: seq<string>)
    ensures ConcatOf([c1]) == Reverse(c1)
    ensures c1 + Reverse(c2) == ConcatOf([ConcatOf([c1]), c2])
  {
    ConcatPair(ConcatOf([c1]), c2);
    ReverseReverse(c1);
  }
}

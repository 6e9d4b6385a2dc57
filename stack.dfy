/**
 * A LIFO stack of strings over immutable singly-linked nodes
 * (class `Stack` and its nested `StackItem` in HomeWork4/Program.cs).
 *
 * Abstractly a stack is the sequence of its values from the BOTTOM to the
 * TOP: the last element of `Contents()` is the top.
 */
module Stacks {
  import opened Sequences

  /**
   * A node never changes once built, so the chain is a value: `Nil` is the
   * absent node (null in the source), `Item(value, previous)` a node and the
   * chain beneath it. Being a datatype, a chain is finite and acyclic.
   */
  datatype StackItem = Nil | Item(value: string, previous: StackItem)

  /** The only failure of the stack: popping an empty stack. */
  datatype StackError = InvalidOperation

  /** What `Pop` gives back: the popped value, or the error it throws. */
  datatype Result<T> = Ok(value: T) | Err(error: StackError)

  /** What `Top` gives back: the top value, or `None` for an empty stack. */
  datatype Option<T> = None | Some(value: T)

  /** The values of a chain from the bottom up to `n`'s value (the top last). */
  function Elements(n: StackItem): (s: seq<string>)
  {
    match n
    case Nil => []
    case Item(v, p) => Elements(p) + [v]
  }

  /** The values of a chain in the order a walk from `n` along `previous` visits them. */
  function Walk(n: StackItem): (s: seq<string>)
  {
    match n
    case Nil => []
    case Item(v, p) => [v] + Walk(p)
  }

  /** A walk from the top visits the stack's elements top first. */
  lemma {:induction false} WalkIsReverse(n: StackItem)
    ensures Walk(n) == Reverse(Elements(n))
  {
    match n
    case Nil =>
    case Item(v, p) =>
      WalkIsReverse(p);
      assert (Elements(p) + [v])[..|Elements(p)|] == Elements(p);
  }

  /**
   * The contents `Concat` builds from the contents `blocks` of its inputs
   * (each bottom to top): each input walked from its top, every visited
   * value pushed, so each input lands reversed above the ones before it.
   */
  function ConcatOf(blocks: seq<seq<string>>): (s: seq<string>)
  {
    if blocks == [] then []
    else ConcatOf(blocks[..|blocks| - 1]) + Reverse(blocks[|blocks| - 1])
  }

  /** The total number of values in `blocks`. */
  function TotalSize(blocks: seq<seq<string>>): (n: nat)
  {
    if blocks == [] then 0
    else TotalSize(blocks[..|blocks| - 1]) + |blocks[|blocks| - 1]|
  }

  /** The size of a concatenation is the sum of the sizes of its inputs. */
  lemma {:induction false} ConcatSize(blocks: seq<seq<string>>)
    ensures |ConcatOf(blocks)| == TotalSize(blocks)
  {
    if blocks != [] {
      ConcatSize(blocks[..|blocks| - 1]);
    }
  }

  /** A concatenation is empty exactly when every input is empty. */
  lemma {:induction false} ConcatEmpty(blocks: seq<seq<string>>)
    ensures ConcatOf(blocks) == [] <==> forall j :: 0 <= j < |blocks| ==> blocks[j] == []
  {
    if blocks != [] {
      var init := blocks[..|blocks| - 1];
      ConcatEmpty(init);
      assert forall j :: 0 <= j < |init| ==> init[j] == blocks[j];
    }
  }

  /**
   * The top of a concatenation is the BOTTOM element of the last non-empty
   * input `blocks[k]`.
   */
  lemma {:induction false} ConcatTop(blocks: seq<seq<string>>, k: nat)
    requires k < |blocks| && blocks[k] != []
    requires forall j :: k < j < |blocks| ==> blocks[j] == []
    ensures ConcatOf(blocks) != []
    ensures ConcatOf(blocks)[|ConcatOf(blocks)| - 1] == blocks[k][0]
  {
    var n := |blocks|;
    if k < n - 1 {
      var init := blocks[..n - 1];
      assert forall j :: k < j < |init| ==> init[j] == blocks[j];
      ConcatTop(init, k);
      assert ConcatOf(blocks) == ConcatOf(init) + [];
    }
  }

  /** One more input adds its values, reversed, on top of a concatenation. */
  lemma ConcatStep(blocks: seq<seq<string>>, i: nat)
    requires i < |blocks|
    ensures ConcatOf(blocks[..i + 1]) == ConcatOf(blocks[..i]) + Reverse(blocks[i])
  {
    assert blocks[..i + 1][..i] == blocks[..i];
  }

  /** `Concat` of one stack reverses it; of two, reverses each in turn. */
  lemma ConcatPair(a: seq<string>, b: seq<string>)
    ensures ConcatOf([a]) == Reverse(a)
    ensures ConcatOf([a, b]) == Reverse(a) + Reverse(b)
  {
  }

  /** Concatenating two lists of inputs concatenates the results. */
  lemma {:induction false} ConcatAppend(a: seq<seq<string>>, b: seq<seq<string>>)
    ensures ConcatOf(a + b) == ConcatOf(a) + ConcatOf(b)
  {
    if b != [] {
      var n := |b|;
      assert (a + b)[..|a + b| - 1] == a + b[..n - 1];
      assert (a + b)[|a + b| - 1] == b[n - 1];
      ConcatAppend(a, b[..n - 1]);
    } else {
      assert a + b == a;
    }
  }

  /** The stack; its only state is the reference to the top node. */
  class Stack {
    var top: StackItem

    /** The values on the stack, bottom first and top last. */
    ghost function Contents(): (s: seq<string>)
      reads this
    {
      Elements(top)
    }

    /** Pushes `items` in order onto an empty stack, so the last one is on top. */
    constructor (items: seq<string>)
      ensures Contents() == items
      ensures Top() == if items == [] then None else Some(items[|items| - 1])
    {
      top := Nil;
      new;
      for i := 0 to |items|
        invariant Contents() == items[..i]
      {
        Add(items[i]);
      }
      assert items[..|items|] == items;
    }

    /** Push: a new node over the old top becomes the top. */
    method Add(item: string)
      modifies this
      ensures top == Item(item, old(top))
      ensures Contents() == old(Contents()) + [item]
    {
      top := Item(item, top);
    }

    /**
     * Removes and returns the top value; on an empty stack it fails and the
     * stack stays as it was.
     */
    method Pop() returns (r: Result<string>)
      modifies this
      ensures old(top) == Nil ==> r == Err(InvalidOperation) && top == old(top)
      ensures old(top) != Nil ==> r == Ok(old(top).value) && top == old(top).previous
      ensures old(Contents()) == [] <==> r.Err?
      ensures r.Ok? ==> r.value == old(Contents())[|old(Contents())| - 1]
      ensures r.Ok? ==> Contents() == old(Contents())[..|old(Contents())| - 1]
    {
      if top == Nil {
        return Err(InvalidOperation);
      }
      r := Ok(top.value);
      top := top.previous;
    }

    /** Counts the nodes by walking the chain from the top. */
    method Size() returns (count: nat)
      ensures count == |Contents()|
      ensures count == 0 <==> Top() == None
    {
      count := 0;
      var current := top;
      while current != Nil
        invariant count + |Elements(current)| == |Contents()|
        decreases current
      {
        count := count + 1;
        current := current.previous;
      }
    }

    /** Peek: the top value, or `None` when the stack is empty. */
    function Top(): (r: Option<string>)
      reads this
      ensures r == None <==> Contents() == []
      ensures r != None ==> r.value == Contents()[|Contents()| - 1]
    {
      if top == Nil then None else Some(top.value)
    }

    /** The top node, the access `Concat` and `Merge` walk from. */
    function GetTop(): (r: StackItem)
      reads this
      ensures Elements(r) == Contents()
      ensures Walk(r) == Reverse(Contents())
    {
      WalkIsReverse(top);
      top
    }

    /**
     * A new stack built by walking every input, in order, from its top to its
     * bottom and pushing each value visited. The inputs are left unchanged.
     */
    static method Concat(stacks: seq<Stack>) returns (result: Stack)
      ensures fresh(result)
      ensures result.Contents() == ConcatOf(ContentsOf(stacks))
      ensures forall j :: 0 <= j < |stacks| ==> stacks[j].top == old(stacks[j].top)
    {
      ghost var blocks := ContentsOf(stacks);
      result := new Stack([]);
      for i := 0 to |stacks|
        invariant result.Contents() == ConcatOf(blocks[..i])
      {
        var current := stacks[i].GetTop();
        ghost var before := result.Contents();
        while current != Nil
          invariant result.Contents() + Walk(current) == before + Reverse(blocks[i])
          decreases current
        {
          result.Add(current.value);
          current := current.previous;
        }
        ConcatStep(blocks, i);
      }
      assert blocks[..|stacks|] == blocks;
    }
  }

  /** The contents of each stack in `stacks`, in order. */
  ghost function ContentsOf(stacks: seq<Stack>): (blocks: seq<seq<string>>)
    reads stacks
    ensures |blocks| == |stacks|
    ensures forall j :: 0 <= j < |stacks| ==> blocks[j] == stacks[j].Contents()
  {
    if stacks == [] then [] else [stacks[0].Contents()] + ContentsOf(stacks[1..])
  }
}

# A linked stack of strings, modelled in Dafny

The model covers the stack of HomeWork4/Program.cs. It is a last-in-first-out stack of strings. Each stack keeps one mutable reference, `_top`, to a chain of immutable nodes (`StackItem`, a value plus a link to the node beneath it). The operations are: a constructor that pushes its arguments in order, `Add` (push), `Pop`, the `Size` count, `Top` (peek), `GetTop`, the static `Concat` of many stacks, and the extension method `Merge`.

Layout:

- `sequences.dfy`, module `Sequences`: `Reverse` and two facts about it.
- `stack.dfy`, module `Stacks`: the node chain as the datatype `StackItem = Nil | Item(value, previous)` and the class `Stack` with its one field `top`. The ghost function `Contents()` lists the values bottom first, so the top is the last element. `Walk` is the order in which a walk from the top visits the values. `ConcatOf` is the contents `Concat` builds, and the lemmas about it follow.
- `stack_extensions.dfy`, module `StackExtensions`: `Merge`, a method on two stacks that changes the first.
- `stack_clients.dfy`, module `StackClients`: callers that use only the contracts. `PushAllThenPopAll` states the LIFO order. `PopScenario`, `MergeScenario` and `ThreeStackConcatScenario` check, by assertions, the sessions of `Program.Main` (HomeWork4/Program.cs:104-132): three pushes and pops down to the failing pop, a merge, and the three-input concatenation. `ConcatScenario` and `SelfMergeScenario` also check a two-input concatenation, a concatenation of no stacks, and a stack merged with itself. `MergeMatchesConcatOfConcat` calls both `Merge` and `Concat` on the same stacks and proves the two results hold the same contents.

Because a chain is a datatype value, it is finite and acyclic by construction. So the walks in `Size`, `Concat` and `Merge` terminate, and a node, once built, never changes.

`Concat` and `Merge` walk each source stack from its top and push every value as they visit it. Each source's block therefore lands reversed, and the new top is the bottom element of the last non-empty source. One might expect the result's top to be the top of the last input. It is the bottom element of the last non-empty input: `MergeScenario` and `ConcatScenario` show "1", not "3", on top after combining [a, b, c] with [1, 2, 3]. Nor is `Merge(s1, s2)` the same as `Concat(s1, s2)`. `MergeIsConcatOfConcat` gives the actual relation: `s1.Merge(s2)` equals `Concat(Concat(s1), s2)`, because a plain `Concat(s1, s2)` also reverses `s1`'s block.

## Model

| member | source | states |
|---|---|---|
| Stacks.Stack.constructor | HomeWork4/Program.cs:9-15 | the new stack's contents are exactly the arguments in order, the last one on top; no arguments give an empty stack whose peek is absent |
| Stacks.Stack.Add | HomeWork4/Program.cs:18-21 | the new top node holds the item over the old chain; the contents are the old contents with the item added on top, everything beneath unchanged |
| Stacks.Stack.Pop | HomeWork4/Program.cs:25-34 | on an empty stack it fails with the invalid-operation error and the stack is unchanged; otherwise it returns the former top value and the contents are the old contents without their top, i.e. exactly what they were before that value was pushed |
| Stacks.Stack.Size | HomeWork4/Program.cs:37-50 | the walk from the top terminates with the number of values on the stack, and that number is 0 exactly when the peek is absent |
| Stacks.Stack.Top | HomeWork4/Program.cs:53 | without changing anything, gives the top value (the last of the contents), and gives absent exactly when the stack is empty |
| Stacks.Stack.GetTop | HomeWork4/Program.cs:55 | the returned chain holds exactly the stack's contents, and walking it visits them top first |
| Stacks.WalkIsReverse | HomeWork4/Program.cs:63-68 | following the previous links from a node visits the chain's values in reverse of their bottom-to-top order |
| Stacks.Stack.Concat | HomeWork4/Program.cs:58-71 | the result is a new stack whose contents are, input by input in order, each input's values in top-to-bottom order, and no input's top changes |
| Stacks.ConcatSize | HomeWork4/Program.cs:58-71 | the size of a concatenation is the sum of its inputs' sizes |
| Stacks.ConcatEmpty | HomeWork4/Program.cs:58-71 | a concatenation is empty exactly when every input is empty, in particular when there are no inputs |
| Stacks.ConcatTop | HomeWork4/Program.cs:63-68 | the top of a concatenation is the bottom element of the last non-empty input |
| Stacks.ConcatAppend | HomeWork4/Program.cs:61-69 | concatenating a list of inputs split in two is concatenating the two results, so a concatenation can be built up input by input |
| Stacks.ConcatStep | HomeWork4/Program.cs:61-69 | finishing one more input adds exactly that input's values, reversed, on top of what the inputs before it built |
| Stacks.ConcatPair | HomeWork4/Program.cs:58-71 | a concatenation of one stack holds its values reversed, and of two stacks each one reversed, the first one lower |
| StackExtensions.Merge | HomeWork4/Program.cs:89-97 | the receiver keeps its old values beneath and gains the other stack's values, pushed in top-to-bottom order, so its size grows by the other's size; the other stack is unchanged unless it is the receiver, and merging a stack with itself terminates with its contents followed by their reverse |
| StackExtensions.MergeIsConcatOfConcat | HomeWork4/Program.cs:89-97 | what a merge leaves in the receiver equals the concatenation of the receiver concatenated alone (its values reversed) with the merged stack |
| StackClients.MergeMatchesConcatOfConcat | HomeWork4/Program.cs:89-97 | on the same stacks, `Merge(s1, s2)` leaves `s1` with the contents of `Concat([Concat([s1]), s2])`, and this holds when `s2` is `s1` |
| StackClients.PushAllThenPopAll | HomeWork4/Program.cs:18-34 | pushing n values and then popping n times returns them in reverse order and leaves the stack as it was, so a push followed by a pop returns the value pushed and restores the contents |

## Left out

- `Program.Main`, HomeWork4/Program.cs:100-133, is a console demonstration and is not part of this model. The scenario methods in `StackClients` assert the sessions it runs, using the contracts alone and without printing.
- Null stack arguments. The source throws `NullReferenceException` for a null element of `stacks` in `Concat` (HomeWork4/Program.cs:63), for a null `s2` in `Merge` (HomeWork4/Program.cs:91), and for a null receiver of `Merge` when `s2` is non-empty (HomeWork4/Program.cs:94). The model's `Stack` type is non-null, so none of these cases arise.
- The text of the exception message. `Pop` returns `Err(InvalidOperation)` where the source throws `InvalidOperationException`.
- Null strings. Values are plain strings, so `Top` returning null for a null-valued top cannot arise. Peek returns `None` for an empty stack where the source returns null.
- Stacks.Stack.Size: the count is an unbounded `nat`. The source's 32-bit `int` would wrap only on a chain of more than 2^31 - 1 nodes.
- Node identity. A node is a value rather than an object, so `GetTop` gives the chain and not a reference that could be compared with `==`. Nodes never change, so nothing else observable depends on this.
- `params` arrays are sequences. Extension-method syntax is a two-argument method. Reclaiming popped nodes has no counterpart.

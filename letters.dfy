/**
 * The letter tiles and the singly linked list that holds them, in
 * insertion order.
 *
 * A `LinkedList` keeps a ghost sequence `nodes` of the letters reachable
 * from `head`, in order. `Valid()` ties `head`, every `next` pointer and the
 * `size` counter to that sequence, so `nodes` is the list's abstract value
 * and `ToArray` returns exactly it.
 */
module Letters {

  /** One alphabet tile: a display symbol, its sound file and the link to the next tile. */
  class Letter {
    const symbol: string
    const soundFile: string
    var next: Letter?

    /** A new letter is not linked to anything yet. */
    constructor (symbol: string, soundFile: string)
      ensures this.symbol == symbol && this.soundFile == soundFile
      ensures next == null
    {
      this.symbol := symbol;
      this.soundFile := soundFile;
      next := null;
    }
  }

  /** The symbols of a sequence of letters, in the same order. */
  function Symbols(letters: seq<Letter>): (syms: seq<string>)
    ensures |syms| == |letters|
    ensures forall i :: 0 <= i < |letters| ==> syms[i] == letters[i].symbol
  {
    if letters == [] then [] else Symbols(letters[..|letters| - 1]) + [letters[|letters| - 1].symbol]
  }

  class LinkedList {
    var head: Letter?
    var size: int
    /** The letters reachable from `head`, in list order. */
    ghost var nodes: seq<Letter>

    /** The node that follows position `i` in the chain, or null after the last one. */
    ghost function Successor(i: nat): Letter?
      reads this
    {
      if i + 1 < |nodes| then nodes[i + 1] else null
    }

    ghost predicate Valid()
      reads this, nodes
    {
      && size == |nodes|
      && head == (if nodes == [] then null else nodes[0])
      && (forall i :: 0 <= i < |nodes| ==> nodes[i].next == Successor(i))
      && (forall i, j :: 0 <= i < j < |nodes| ==> nodes[i] != nodes[j])
    }

    constructor ()
      ensures Valid()
      ensures nodes == [] && size == 0
    {
      head := null;
      size := 0;
      nodes := [];
    }

    /**
     * Walks to the tail and links `letter` after it. The letter comes fresh
     * from the constructor, so it is unlinked and not yet in the list.
     */
    method Append(letter: Letter)
      requires Valid()
      requires letter.next == null
      requires letter !in nodes
      modifies this, nodes
      ensures Valid()
      ensures nodes == old(nodes) + [letter]
      ensures size == old(size) + 1
      ensures head == old(head) || old(head) == null
    {
      if head == null {
        head := letter;
      } else {
        var current := head;
        ghost var k := 0;
        while current.next != null
          invariant 0 <= k < |nodes| && current == nodes[k]
          decreases |nodes| - k
        {
          current := current.next;
          k := k + 1;
        }
        current.next := letter;
      }
      size := size + 1;
      nodes := nodes + [letter];
    }

    /**
     * The recursive search from `current`, which stands at position `k` of
     * the chain (past the end when null): the first letter at or after `k`
     * whose symbol is `symbol`, or null when there is none.
     */
    function FindFrom(symbol: string, current: Letter?, ghost k: nat): (r: Letter?)
      requires Valid()
      requires k <= |nodes| && current == (if k < |nodes| then nodes[k] else null)
      reads this, nodes
      ensures r == null <==> forall i :: k <= i < |nodes| ==> nodes[i].symbol != symbol
      ensures r != null ==> exists i :: k <= i < |nodes| && nodes[i] == r && r.symbol == symbol
                                        && forall j :: k <= j < i ==> nodes[j].symbol != symbol
      decreases |nodes| - k
    {
      if current == null then null
      else if current.symbol == symbol then current
      else FindFrom(symbol, current.next, k + 1)
    }

    /** The first letter in list order with the given symbol, or null when no letter has it. */
    function Find(symbol: string): (r: Letter?)
      requires Valid()
      reads this, nodes
      ensures r == null <==> symbol !in Symbols(nodes)
      ensures r != null ==> exists i :: 0 <= i < |nodes| && nodes[i] == r && r.symbol == symbol
                                        && forall j :: 0 <= j < i ==> nodes[j].symbol != symbol
    {
      FindFrom(symbol, head, 0)
    }

    /** Collects the letters from `head` onwards into a sequence. */
    method ToArray() returns (result: seq<Letter>)
      requires Valid()
      ensures result == nodes
      ensures |result| == size
    {
      result := [];
      var current := head;
      ghost var k := 0;
      while current != null
        invariant 0 <= k <= |nodes|
        invariant result == nodes[..k]
        invariant current == (if k < |nodes| then nodes[k] else null)
        decreases |nodes| - k
      {
        result := result + [current];
        current := current.next;
        k := k + 1;
      }
    }
  }
}

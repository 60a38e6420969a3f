/**
 * The alphabet: a linked list of letters plus three category buckets
 * (vowels, consonants, the soft sign), the random pick used by the
 * "random letter" button, and the start-up list of 33 letters.
 *
 * `Alphabet.Valid()` states that bucket `c` is exactly the subsequence of
 * the list's letters whose category is `c`; the `addLetter` invariant that
 * the list's size equals the sum of the bucket lengths follows from it.
 */
module Alphabets {
  import opened Letters

  /** The ten vowel symbols, in the order `categorize` lists them (script.js:151). */
  const Vowels: seq<string> := ["А", "Е", "Є", "И", "І", "Ї", "О", "У", "Ю", "Я"]
  /** The soft sign, which gets a bucket of its own. */
  const SoftSign: string := "Ь"

  const VowelBucket: nat := 0
  const ConsonantBucket: nat := 1
  const SoftSignBucket: nat := 2

  /** The bucket `categorize` pushes a letter with this symbol into. */
  function CategoryIndex(symbol: string): (index: nat)
    ensures index < 3
    ensures index == VowelBucket <==> symbol in Vowels
    ensures index == SoftSignBucket <==> symbol !in Vowels && symbol == SoftSign
    ensures index == ConsonantBucket <==> symbol !in Vowels && symbol != SoftSign
  {
    if symbol in Vowels then VowelBucket
    else if symbol == SoftSign then SoftSignBucket
    else ConsonantBucket
  }

  /** The letters of `s` whose category is `c`, in their order in `s`. */
  function Bucket(s: seq<Letter>, c: nat): seq<Letter>
  {
    if s == [] then []
    else Bucket(s[..|s| - 1], c) + (if CategoryIndex(s[|s| - 1].symbol) == c then [s[|s| - 1]] else [])
  }

  /** Appending one letter extends only the bucket of that letter's category. */
  lemma BucketAppend(s: seq<Letter>, x: Letter, c: nat)
    ensures Bucket(s + [x], c) == Bucket(s, c) + (if CategoryIndex(x.symbol) == c then [x] else [])
  {
    assert (s + [x])[..|s|] == s;
  }

  /** A letter is in bucket `c` exactly when it is in the list and its category is `c`. */
  lemma {:induction false} BucketMembership(s: seq<Letter>, c: nat, x: Letter)
    ensures x in Bucket(s, c) <==> x in s && CategoryIndex(x.symbol) == c
  {
    if s != [] {
      var init, last := s[..|s| - 1], s[|s| - 1];
      assert s == init + [last];
      BucketMembership(init, c, x);
    }
  }

  /** The three buckets share out the list's letters: their lengths add up to its length. */
  lemma {:induction false} BucketSizes(s: seq<Letter>)
    ensures |Bucket(s, VowelBucket)| + |Bucket(s, ConsonantBucket)| + |Bucket(s, SoftSignBucket)| == |s|
  {
    if s != [] {
      BucketSizes(s[..|s| - 1]);
    }
  }

  /** `u * n` is never negative and, for a non-empty list, stays below `n`. */
  lemma ScaledBelow(u: real, n: nat)
    requires 0.0 <= u < 1.0
    ensures 0.0 <= u * n as real
    ensures n > 0 ==> u * n as real < n as real
  {
    assert n as real - u * n as real == (1.0 - u) * n as real;
  }

  /** The index `Math.floor(u * n)` the random pick reads, for `u` from `Math.random()`. */
  function RandomIndex(u: real, n: nat): (i: int)
    requires 0.0 <= u < 1.0
    ensures n > 0 ==> 0 <= i < n
    ensures n == 0 ==> i == 0
  {
    ScaledBelow(u, n);
    (u * n as real).Floor
  }

  /** Every position of a non-empty list is picked by some value of `Math.random()`. */
  lemma RandomIndexCovers(n: nat, k: nat)
    requires k < n
    ensures 0.0 <= k as real / n as real < 1.0
    ensures RandomIndex(k as real / n as real, n) == k
  {
  }

  class Alphabet {
    const letters: LinkedList
    /** Bucket 0 holds the vowels, bucket 1 the consonants, bucket 2 the soft sign. */
    var categories: seq<seq<Letter>>

    ghost predicate Valid()
      reads this, letters, letters.nodes
    {
      && letters.Valid()
      && |categories| == 3
      && (forall c :: 0 <= c < 3 ==> categories[c] == Bucket(letters.nodes, c))
    }

    /** An empty alphabet: no letters and three empty buckets. */
    constructor ()
      ensures Valid()
      ensures fresh(letters)
      ensures letters.nodes == [] && categories == [[], [], []]
    {
      letters := new LinkedList();
      categories := [[], [], []];
    }

    /** The list's size always equals the sum of the three bucket lengths. */
    lemma SizeIsBucketTotal()
      requires Valid()
      ensures letters.size == |categories[VowelBucket]| + |categories[ConsonantBucket]| + |categories[SoftSignBucket]|
    {
      BucketSizes(letters.nodes);
    }

    /** Pushes `letter` into its category's bucket; the other two buckets are left as they were. */
    method Categorize(letter: Letter)
      requires |categories| == 3
      modifies this`categories
      ensures |categories| == 3
      ensures categories[CategoryIndex(letter.symbol)] == old(categories[CategoryIndex(letter.symbol)]) + [letter]
      ensures forall c :: 0 <= c < 3 && c != CategoryIndex(letter.symbol) ==> categories[c] == old(categories[c])
    {
      var index := if letter.symbol in Vowels then VowelBucket
                   else if letter.symbol == SoftSign then SoftSignBucket
                   else ConsonantBucket;
      categories := categories[index := categories[index] + [letter]];
    }

    /** Appends `letter` to the list and files it in its bucket. */
    method AddLetter(letter: Letter)
      requires Valid()
      requires letter.next == null
      requires letter !in letters.nodes
      modifies this, letters, letters.nodes
      ensures Valid()
      ensures letters.nodes == old(letters.nodes) + [letter]
      ensures letters.size == |categories[VowelBucket]| + |categories[ConsonantBucket]| + |categories[SoftSignBucket]|
    {
      letters.Append(letter);
      Categorize(letter);
      forall c | 0 <= c < 3
        ensures categories[c] == Bucket(letters.nodes, c)
      {
        BucketAppend(old(letters.nodes), letter, c);
      }
      SizeIsBucketTotal();
    }

    /**
     * The letter at `Math.floor(u * n)` of the list's letters, with `u`
     * standing for `Math.random()`; null (JavaScript's undefined) when the
     * list is empty.
     */
    method GetRandomLetter(u: real) returns (r: Letter?)
      requires letters.Valid()
      requires 0.0 <= u < 1.0
      ensures r == null <==> letters.nodes == []
      ensures r != null ==> r == letters.nodes[RandomIndex(u, |letters.nodes|)]
      ensures r != null ==> r in letters.nodes
    {
      var all := letters.ToArray();
      var i := RandomIndex(u, |all|);
      r := if 0 <= i < |all| then all[i] else null;
    }
  }

  /** The "random letter" button's action on an alphabet. */
  class PlayRandomCommand {
    const alphabet: Alphabet

    constructor (alphabet: Alphabet)
      ensures this.alphabet == alphabet
    {
      this.alphabet := alphabet;
    }

    /**
     * Picks a random letter and, if there is one, plays it; returns the
     * letter whose sound was started, or null when nothing was played.
     */
    method Execute(u: real) returns (played: Letter?)
      requires alphabet.letters.Valid()
      requires 0.0 <= u < 1.0
      ensures played == null <==> alphabet.letters.nodes == []
      ensures played != null ==> played == alphabet.letters.nodes[RandomIndex(u, |alphabet.letters.nodes|)]
      ensures played != null ==> played in alphabet.letters.nodes
    {
      var letter := alphabet.GetRandomLetter(u);
      // `letter.playSound()` runs only when a letter was picked.
      played := letter;
    }
  }

  /** The 33 symbol/sound pairs the page starts with, in alphabet order. */
  const LettersData: seq<(string, string)> := [
    ("А", "sound/а.mp3"), ("Б", "sound/б.mp3"), ("В", "sound/в.mp3"), ("Г", "sound/г.mp3"),
    ("Ґ", "sound/ґ.mp3"), ("Д", "sound/д.mp3"), ("Е", "sound/е.mp3"), ("Є", "sound/є.mp3"),
    ("Ж", "sound/ж.mp3"), ("З", "sound/з.mp3"), ("И", "sound/и.mp3"), ("І", "sound/і.mp3"),
    ("Ї", "sound/ї.mp3"), ("Й", "sound/й.mp3"), ("К", "sound/к.mp3"), ("Л", "sound/л.mp3"),
    ("М", "sound/м.mp3"), ("Н", "sound/н.mp3"), ("О", "sound/о.mp3"), ("П", "sound/п.mp3"),
    ("Р", "sound/р.mp3"), ("С", "sound/с.mp3"), ("Т", "sound/т.mp3"), ("У", "sound/у.mp3"),
    ("Ф", "sound/ф.mp3"), ("Х", "sound/х.mp3"), ("Ц", "sound/ц.mp3"), ("Ч", "sound/ч.mp3"),
    ("Ш", "sound/ш.mp3"), ("Щ", "sound/щ.mp3"), ("Ь", "sound/ь.mp3"), ("Ю", "sound/ю.mp3"),
    ("Я", "sound/я.mp3")
  ]

  /** The symbols of a list of symbol/sound pairs, in order. */
  function DataSymbols(data: seq<(string, string)>): (syms: seq<string>)
    ensures |syms| == |data|
    ensures forall i :: 0 <= i < |data| ==> syms[i] == data[i].0
  {
    seq(|data|, i requires 0 <= i < |data| => data[i].0)
  }

  /** The bucket of each symbol, in order. */
  function Categories(syms: seq<string>): seq<nat>
  {
    seq(|syms|, i requires 0 <= i < |syms| => CategoryIndex(syms[i]))
  }

  /** The length of bucket `c` is the number of the list's symbols whose category is `c`. */
  lemma {:induction false} BucketCount(s: seq<Letter>, c: nat)
    ensures |Bucket(s, c)| == multiset(Categories(Symbols(s)))[c]
  {
    if s != [] {
      var init := s[..|s| - 1];
      BucketCount(init, c);
      assert Categories(Symbols(s)) == Categories(Symbols(init)) + [CategoryIndex(s[|s| - 1].symbol)];
    }
  }

  /** The buckets of the start-up letters А to И, of І to С and of Т to Я (0 vowel, 1 consonant, 2 soft sign). */
  const HeadCategories: seq<nat> := [0, 1, 1, 1, 1, 1, 0, 0, 1, 1, 0]
  const MiddleCategories: seq<nat> := [0, 0, 1, 1, 1, 1, 1, 0, 1, 1, 1]
  const TailCategories: seq<nat> := [1, 0, 1, 1, 1, 1, 1, 1, 2, 0, 0]

  lemma HeadCategorized()
    ensures forall i :: 0 <= i < 11 ==> CategoryIndex(LettersData[i].0) == HeadCategories[i]
  {
  }

  lemma MiddleCategorized()
    ensures forall i :: 11 <= i < 22 ==> CategoryIndex(LettersData[i].0) == MiddleCategories[i - 11]
  {
  }

  lemma TailCategorized()
    ensures forall i :: 22 <= i < 33 ==> CategoryIndex(LettersData[i].0) == TailCategories[i - 22]
  {
  }

  /** Each start-up letter falls into the bucket the three tables give for it, in order. */
  lemma LettersDataCategorized()
    ensures Categories(DataSymbols(LettersData)) == HeadCategories + MiddleCategories + TailCategories
  {
    HeadCategorized();
    MiddleCategorized();
    TailCategorized();
  }

  lemma HeadCategoryCounts()
    ensures multiset(HeadCategories) == multiset{0, 0, 0, 0} + multiset{1, 1, 1, 1, 1, 1, 1}
  {
  }

  lemma MiddleCategoryCounts()
    ensures multiset(MiddleCategories) == multiset{0, 0, 0} + multiset{1, 1, 1, 1, 1, 1, 1, 1}
  {
  }

  lemma TailCategoryCounts()
    ensures multiset(TailCategories) == multiset{0, 0, 0} + multiset{1, 1, 1, 1, 1, 1, 1} + multiset{2}
  {
  }

  /** The three tables together hold 10 vowels, 22 consonants and one soft sign. */
  lemma CategoryTableCounts()
    ensures multiset(HeadCategories + MiddleCategories + TailCategories)[VowelBucket] == 10
    ensures multiset(HeadCategories + MiddleCategories + TailCategories)[ConsonantBucket] == 22
    ensures multiset(HeadCategories + MiddleCategories + TailCategories)[SoftSignBucket] == 1
  {
    HeadCategoryCounts();
    MiddleCategoryCounts();
    TailCategoryCounts();
    assert multiset(HeadCategories + MiddleCategories + TailCategories)
        == multiset(HeadCategories) + multiset(MiddleCategories) + multiset(TailCategories);
  }

  /** Filed in order, the start-up letters give 10 vowels, 22 consonants and the soft sign. */
  lemma LettersDataBuckets(s: seq<Letter>)
    requires Symbols(s) == DataSymbols(LettersData)
    ensures |Bucket(s, VowelBucket)| == 10
    ensures |Bucket(s, ConsonantBucket)| == 22
    ensures |Bucket(s, SoftSignBucket)| == 1
  {
    LettersDataCategorized();
    CategoryTableCounts();
    BucketCount(s, VowelBucket);
    BucketCount(s, ConsonantBucket);
    BucketCount(s, SoftSignBucket);
  }

  /**
   * The start-up loop: one new letter per entry, made by the factory and
   * added to the alphabet, in the order of `data`.
   */
  method AddAll(alphabet: Alphabet, data: seq<(string, string)>) returns (ghost made: seq<Letter>)
    requires alphabet.Valid()
    modifies alphabet, alphabet.letters, alphabet.letters.nodes
    ensures alphabet.Valid()
    ensures alphabet.letters.nodes == old(alphabet.letters.nodes) + made
    ensures |made| == |data|
    ensures forall j :: 0 <= j < |data| ==> made[j].symbol == data[j].0 && made[j].soundFile == data[j].1
  {
    ghost var start := alphabet.letters.nodes;
    made := [];
    var i := 0;
    while i < |data|
      invariant 0 <= i <= |data|
      invariant alphabet.Valid()
      invariant |made| == i
      invariant alphabet.letters.nodes == start + made
      invariant forall k :: 0 <= k < |made| ==> fresh(made[k])
      invariant forall j :: 0 <= j < i ==> made[j].symbol == data[j].0 && made[j].soundFile == data[j].1
    {
      var letter := new Letter(data[i].0, data[i].1);
      alphabet.AddLetter(letter);
      made := made + [letter];
      i := i + 1;
    }
  }

  /** The page start-up: an alphabet filled with the 33 start-up letters, in order. */
  method Initialize() returns (alphabet: Alphabet)
    ensures fresh(alphabet)
    ensures alphabet.Valid()
    ensures alphabet.letters.size == |LettersData| == 33
    ensures Symbols(alphabet.letters.nodes) == DataSymbols(LettersData)
    ensures alphabet.letters.size == |alphabet.categories[VowelBucket]| + |alphabet.categories[ConsonantBucket]|
                                     + |alphabet.categories[SoftSignBucket]|
    ensures |alphabet.categories[VowelBucket]| == 10
    ensures |alphabet.categories[ConsonantBucket]| == 22
    ensures |alphabet.categories[SoftSignBucket]| == 1
  {
    alphabet := new Alphabet();
    ghost var made := AddAll(alphabet, LettersData);
    alphabet.SizeIsBucketTotal();
    LettersDataBuckets(alphabet.letters.nodes);
  }
}

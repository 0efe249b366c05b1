/**
 * The card vocabulary shared by both server variants: the table of card types
 * that a drawn string is looked up in, the canonical five-card deck, the
 * in-place shuffle applied to it, and the list removal the store performs
 * when a card is drawn.
 */
module Cards {

  /** The kind a drawn string resolves to; `Unlisted` is a string the card table does not know. */
  datatype Kind = Cat | Defuse | Shuffle | ExplodingKitten | Unlisted

  /** The reply of "start game": the stored deck, resumed or freshly created. */
  datatype StartOutcome = Resumed(deck: seq<string>) | Started(deck: seq<string>)

  /** The type names of the card table, in table order (the glyphs are cosmetic and left out). */
  const CardTypes: seq<string> := ["Cat", "Defuse", "Shuffle", "Exploding Kitten"]

  /** The fixed composition a new or reset deck starts from, before shuffling. */
  const Canonical: seq<string> := ["Cat", "Cat", "Defuse", "Shuffle", "Exploding Kitten"]

  /** The stored name of a listed kind. */
  function Name(k: Kind): (s: string)
    requires k != Unlisted
    ensures s in CardTypes
  {
    match k
    case Cat => "Cat"
    case Defuse => "Defuse"
    case Shuffle => "Shuffle"
    case ExplodingKitten => "Exploding Kitten"
  }

  /**
   * The linear scan over the card table: the type of the first entry equal to
   * `drawn`, or the empty string when no entry matches.
   */
  function LookupType(table: seq<string>, drawn: string): (t: string)
    ensures drawn in table ==> t == drawn
    ensures drawn !in table ==> t == ""
  {
    if table == [] then ""
    else if table[0] == drawn then table[0]
    else LookupType(table[1..], drawn)
  }

  /** The branch of the card switch that a drawn string selects. */
  function KindOf(drawn: string): Kind
  {
    match LookupType(CardTypes, drawn)
    case "Cat" => Cat
    case "Defuse" => Defuse
    case "Shuffle" => Shuffle
    case "Exploding Kitten" => ExplodingKitten
    case _ => Unlisted
  }

  /** Looking up the name of a listed kind gives that kind back, and a string that resolves is exactly that name. */
  lemma KindOfName(k: Kind, s: string)
    ensures k != Unlisted ==> KindOf(Name(k)) == k
    ensures KindOf(s) != Unlisted <==> s in CardTypes
    ensures KindOf(s) != Unlisted ==> Name(KindOf(s)) == s
  {
  }

  /** A deck that holds no card beyond the canonical five (counted with multiplicity). */
  ghost predicate WithinCanonical(deck: seq<string>)
  {
    multiset(deck) <= multiset(Canonical)
  }

  /** The deck stored under `u`; a missing key reads as the empty list. */
  function DeckAt(decks: map<string, seq<string>>, u: string): seq<string>
  {
    if u in decks then decks[u] else []
  }

  /** Every stored deck is within the canonical composition. */
  ghost predicate DecksWithin(decks: map<string, seq<string>>)
  {
    forall u :: u in decks ==> WithinCanonical(decks[u])
  }

  /** A deck within the canonical composition has at most five cards, each of a listed kind. */
  lemma {:induction false} WithinCanonicalBounds(deck: seq<string>)
    requires WithinCanonical(deck)
    ensures |deck| <= 5
    ensures forall k :: 0 <= k < |deck| ==> KindOf(deck[k]) != Unlisted
  {
    assert |multiset(deck)| <= |multiset(Canonical)| by {
      SubMultisetSize(multiset(deck), multiset(Canonical));
    }
    forall k | 0 <= k < |deck| ensures KindOf(deck[k]) != Unlisted {
      assert deck[k] in multiset(deck);
      assert deck[k] in multiset(Canonical);
      assert deck[k] in Canonical;
      KindOfName(Cat, deck[k]);
    }
  }

  lemma {:induction false} SubMultisetSize(a: multiset<string>, b: multiset<string>)
    requires a <= b
    ensures |a| <= |b|
    decreases |b|
  {
    if b != multiset{} {
      var x :| x in b;
      if x in a {
        SubMultisetSize(a - multiset{x}, b - multiset{x});
      } else {
        SubMultisetSize(a, b - multiset{x});
      }
    }
  }

  /* ---------------- Shuffle ---------------- */

  /**
   * The choices of a Fisher-Yates shuffle of `n` elements: for each position
   * i, the index `picks[i]` in 0..i it is swapped with. The shuffle never
   * draws for position 0, so `picks[0]` is necessarily 0.
   */
  predicate ValidPicks(picks: seq<nat>, n: nat)
  {
    |picks| == n && forall k :: 0 <= k < n ==> picks[k] <= k
  }

  /** `s` with the elements at `i` and `j` exchanged. */
  function Swap<T>(s: seq<T>, i: nat, j: nat): (r: seq<T>)
    requires i < |s| && j < |s|
    ensures |r| == |s|
  {
    s[i := s[j]][j := s[i]]
  }

  /** A swap exchanges two elements and so keeps the multiset of elements. */
  lemma SwapPermutes<T>(s: seq<T>, i: nat, j: nat)
    requires i < |s| && j < |s|
    ensures multiset(Swap(s, i, j)) == multiset(s)
  {
  }

  /** The shuffle's remaining work once positions n-1 down to `i` are done: swap at i-1, i-2, ..., 1. */
  function ShuffledBelow<T>(s: seq<T>, picks: seq<nat>, i: nat): seq<T>
    requires ValidPicks(picks, |s|) && i <= |s|
    decreases i
  {
    if i <= 1 then s else ShuffledBelow(Swap(s, i - 1, picks[i - 1]), picks, i - 1)
  }

  /** The result of shuffling `s` with the given choices. */
  function Shuffled<T>(s: seq<T>, picks: seq<nat>): seq<T>
    requires ValidPicks(picks, |s|)
  {
    ShuffledBelow(s, picks, |s|)
  }

  /** Shuffling only permutes: the length and the multiset of elements are kept. */
  lemma {:induction false} ShuffledBelowPermutes<T>(s: seq<T>, picks: seq<nat>, i: nat)
    requires ValidPicks(picks, |s|) && i <= |s|
    ensures |ShuffledBelow(s, picks, i)| == |s|
    ensures multiset(ShuffledBelow(s, picks, i)) == multiset(s)
    decreases i
  {
    if i > 1 {
      SwapPermutes(s, i - 1, picks[i - 1]);
      ShuffledBelowPermutes(Swap(s, i - 1, picks[i - 1]), picks, i - 1);
    }
  }

  /** A shuffled canonical deck has five cards and is a permutation of the canonical composition. */
  lemma ShuffledCanonical(picks: seq<nat>)
    requires ValidPicks(picks, 5)
    ensures |Shuffled(Canonical, picks)| == 5
    ensures multiset(Shuffled(Canonical, picks)) == multiset(Canonical)
    ensures WithinCanonical(Shuffled(Canonical, picks))
  {
    ShuffledBelowPermutes(Canonical, picks, 5);
  }

  /** Choosing every position itself (picks[k] == k) leaves `s` in its original order. */
  lemma {:induction false} ShuffledIdentity<T>(s: seq<T>, picks: seq<nat>, i: nat)
    requires ValidPicks(picks, |s|) && i <= |s|
    requires forall k :: 0 <= k < |s| ==> picks[k] == k
    ensures ShuffledBelow(s, picks, i) == s
    decreases i
  {
    if i > 1 {
      assert Swap(s, i - 1, picks[i - 1]) == s;
      ShuffledIdentity(s, picks, i - 1);
    }
  }

  /**
   * The shuffle can leave the canonical deck in its fixed order, so the
   * unshuffled refill of the earlier server is one of the decks the shuffle
   * deals.
   */
  lemma CanonicalOrderIsDealt()
    ensures exists picks :: ValidPicks(picks, 5) && Shuffled(Canonical, picks) == Canonical
  {
    var identity: seq<nat> := [0, 1, 2, 3, 4];
    ShuffledIdentity(Canonical, identity, 5);
    assert ValidPicks(identity, 5) && Shuffled(Canonical, identity) == Canonical;
  }

  /** The swap closure handed to the shuffle, run in place over the slice. */
  method ShuffleInPlace(a: array<string>, picks: seq<nat>)
    requires ValidPicks(picks, a.Length)
    modifies a
    ensures a[..] == Shuffled(old(a[..]), picks)
    ensures multiset(a[..]) == multiset(old(a[..]))
  {
    var i := a.Length;
    while i > 1
      invariant 0 <= i <= a.Length
      invariant ShuffledBelow(a[..], picks, i) == Shuffled(old(a[..]), picks)
    {
      ghost var before := a[..];
      i := i - 1;
      var j := picks[i];
      a[i], a[j] := a[j], a[i];
      assert a[..] == Swap(before, i, j);
    }
    ShuffledBelowPermutes(old(a[..]), picks, a.Length);
  }

  /** Builds the canonical five in a fresh slice and shuffles it. */
  method ShuffledDeck(picks: seq<nat>) returns (deck: seq<string>)
    requires ValidPicks(picks, 5)
    ensures deck == Shuffled(Canonical, picks)
    ensures |deck| == 5
  {
    var a := new string[5](k requires 0 <= k < 5 => Canonical[k]);
    assert a[..] == Canonical;
    ShuffleInPlace(a, picks);
    deck := a[..];
    ShuffledCanonical(picks);
  }

  /* ---------------- Removal by value ---------------- */

  /** The list removal with count 1: the first occurrence of `x`, scanning from the head, is dropped. */
  function RemoveFirst<T(==)>(s: seq<T>, x: T): (r: seq<T>)
    ensures x in s ==> |r| == |s| - 1
    ensures x !in s ==> r == s
  {
    if s == [] then []
    else if s[0] == x then s[1..]
    else (assert s == [s[0]] + s[1..]; [s[0]] + RemoveFirst(s[1..], x))
  }

  /** Removal takes exactly one copy of `x` out of the deck's multiset of cards, and nothing else. */
  lemma {:induction false} RemoveFirstMultiset<T>(s: seq<T>, x: T)
    ensures multiset(RemoveFirst(s, x)) == multiset(s) - multiset{x}
  {
    if s != [] {
      assert s == [s[0]] + s[1..];
      if s[0] != x {
        RemoveFirstMultiset(s[1..], x);
      }
    }
  }

  /** The index of the first occurrence of `x` in `s`. */
  function FirstIndex<T(==)>(s: seq<T>, x: T): (k: nat)
    requires x in s
    ensures k < |s| && s[k] == x && x !in s[..k]
  {
    if s[0] == x then 0 else 1 + FirstIndex(s[1..], x)
  }

  /** Removal cuts out exactly the first occurrence and keeps the order of everything else. */
  lemma {:induction false} RemoveFirstSplice<T>(s: seq<T>, x: T)
    requires x in s
    ensures RemoveFirst(s, x) == s[..FirstIndex(s, x)] + s[FirstIndex(s, x) + 1..]
  {
    if s[0] == x {
      assert s[..0] == [];
    } else {
      var t := s[1..];
      assert x in t by { assert s == [s[0]] + t; }
      var k := FirstIndex(t, x);
      RemoveFirstSplice(t, x);
      assert s[..k + 1] == [s[0]] + t[..k];
      assert s[k + 2..] == t[k + 1..];
    }
  }

  /** Removing a card from one user's deck keeps every deck within the canonical composition. */
  lemma RemoveKeepsWithin(decks: map<string, seq<string>>, u: string, x: string)
    requires DecksWithin(decks)
    ensures DecksWithin(decks[u := RemoveFirst(DeckAt(decks, u), x)])
  {
    RemoveFirstMultiset(DeckAt(decks, u), x);
  }

  /** Storing a freshly shuffled canonical deck keeps every deck within the canonical composition. */
  lemma DealKeepsWithin(decks: map<string, seq<string>>, u: string, picks: seq<nat>)
    requires DecksWithin(decks)
    requires ValidPicks(picks, 5)
    ensures DecksWithin(decks[u := Shuffled(Canonical, picks)])
  {
    ShuffledCanonical(picks);
  }

  /** Storing the canonical deck in its fixed order keeps every deck within the canonical composition. */
  lemma RefillKeepsWithin(decks: map<string, seq<string>>, u: string)
    requires DecksWithin(decks)
    ensures DecksWithin(decks[u := Canonical])
  {
  }
}

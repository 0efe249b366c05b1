/**
 * The earlier server variant (main2.go): the same deck handling without the
 * counter hashes. An Exploding Kitten always ends the game, and both it and a
 * Shuffle card refill the deck with the canonical five in their fixed order.
 * The defuse field is written but never read.
 */
module GameV2 {
  import opened Cards
  import opened GoInts

  /** What a draw resolved to, once the card has been taken off the deck. */
  datatype Effect =
    | Lost         // an Exploding Kitten: the game is refilled
    | DefuseKept   // a Defuse card: the defuse field is set
    | Reshuffled   // a Shuffle card: the game is refilled
    | CatDrawn     // the default branch: Cat, or a name the card table does not list

  /** The reply of "draw card". */
  datatype DrawOutcome = NoCardsLeft | Drawn(card: string, effect: Effect)

  /** The contents of the store this variant uses: decks by user and each user's defuse field. */
  datatype StoreState = StoreState(decks: map<string, seq<string>>, defuse: map<string, string>)

  /** Deck creation: the canonical five, shuffled, appended to the user's list. */
  function Initialized(st: StoreState, u: string, picks: seq<nat>): StoreState
    requires ValidPicks(picks, 5)
  {
    st.(decks := st.decks[u := DeckAt(st.decks, u) + Shuffled(Canonical, picks)])
  }

  /** Start game: a non-empty deck is resumed as it is; otherwise a deck is created and read back. */
  function Start(st: StoreState, u: string, picks: seq<nat>): (StartOutcome, StoreState)
    requires ValidPicks(picks, 5)
  {
    var existing := DeckAt(st.decks, u);
    if |existing| > 0 then (Resumed(existing), st)
    else
      var created := Initialized(st, u, picks);
      (Started(DeckAt(created.decks, u)), created)
  }

  /** Reset: the user's list is deleted and the canonical five pushed back, unshuffled. */
  function Refilled(st: StoreState, u: string): StoreState
  {
    st.(decks := st.decks[u := Canonical])
  }

  /** Resolution of a card already taken off the deck: the switch on the type the card table gives. */
  function Handle(st: StoreState, u: string, drawn: string): (Effect, StoreState)
  {
    match KindOf(drawn)
    case ExplodingKitten => (Lost, Refilled(st, u))
    case Defuse => (DefuseKept, st.(defuse := st.defuse[u := "1"]))
    case Shuffle => (Reshuffled, Refilled(st, u))
    case _ => (CatDrawn, st)
  }

  /**
   * Draw: an empty or missing deck is refused and nothing changes; otherwise
   * the card at position `i` is drawn, the first card of that name is removed
   * from the list, and the card is resolved.
   */
  function Draw(st: StoreState, u: string, i: nat): (DrawOutcome, StoreState)
    requires DeckAt(st.decks, u) != [] ==> i < |DeckAt(st.decks, u)|
  {
    var deck := DeckAt(st.decks, u);
    if deck == [] then (NoCardsLeft, st)
    else
      var card := deck[i];
      var (e, post) := Handle(st.(decks := st.decks[u := RemoveFirst(deck, card)]), u, card);
      (Drawn(card, e), post)
  }

  /* ---------------- Properties of the transitions ---------------- */

  /** Start game on a non-empty deck returns that deck and writes nothing. */
  lemma StartGameResumes(st: StoreState, u: string, picks: seq<nat>)
    requires ValidPicks(picks, 5)
    requires DeckAt(st.decks, u) != []
    ensures Start(st, u, picks) == (Resumed(DeckAt(st.decks, u)), st)
  {
  }

  /**
   * Start game on an empty or missing deck stores a permutation of the
   * canonical five and returns it; nothing else is written.
   */
  lemma {:induction false} StartGameCreates(st: StoreState, u: string, picks: seq<nat>)
    requires ValidPicks(picks, 5)
    requires DeckAt(st.decks, u) == []
    ensures var (o, post) := Start(st, u, picks);
      && o.Started?
      && |o.deck| == 5 && multiset(o.deck) == multiset(Canonical)
      && post == st.(decks := st.decks[u := o.deck])
  {
    ShuffledCanonical(picks);
    assert DeckAt(st.decks, u) + Shuffled(Canonical, picks) == Shuffled(Canonical, picks);
  }

  /** Starting twice in a row: the second start resumes exactly the deck of the first and changes nothing. */
  lemma StartGameIdempotent(st: StoreState, u: string, picks1: seq<nat>, picks2: seq<nat>)
    requires ValidPicks(picks1, 5) && ValidPicks(picks2, 5)
    ensures var (first, mid) := Start(st, u, picks1);
      Start(mid, u, picks2) == (Resumed(first.deck), mid)
  {
    if DeckAt(st.decks, u) == [] {
      StartGameCreates(st, u, picks1);
    }
  }

  /** A draw from an empty or missing deck is refused and changes nothing (no win is recorded in this variant). */
  lemma DrawFromEmptyDeck(st: StoreState, u: string, i: nat)
    requires DeckAt(st.decks, u) == []
    ensures Draw(st, u, i) == (NoCardsLeft, st)
  {
  }

  /**
   * A draw from a non-empty deck returns the card at the chosen position.
   * Unless that card refills the deck (an Exploding Kitten or a Shuffle), the
   * user's deck afterwards is the old one with the first card of that name
   * cut out, one card shorter. No other user's deck changes.
   */
  lemma DrawRemovesFirstOccurrence(st: StoreState, u: string, i: nat)
    requires DeckAt(st.decks, u) != [] && i < |DeckAt(st.decks, u)|
    ensures var deck := DeckAt(st.decks, u);
      var (o, post) := Draw(st, u, i);
      && o.Drawn? && o.card == deck[i]
      && (KindOf(o.card) != Shuffle && KindOf(o.card) != ExplodingKitten ==>
            && DeckAt(post.decks, u) == deck[..FirstIndex(deck, o.card)] + deck[FirstIndex(deck, o.card) + 1..]
            && |DeckAt(post.decks, u)| == |deck| - 1)
      && (forall v :: v != u ==> DeckAt(post.decks, v) == DeckAt(st.decks, v))
  {
    var deck := DeckAt(st.decks, u);
    assert deck[i] in deck;
    RemoveFirstSplice(deck, deck[i]);
  }

  /**
   * An Exploding Kitten always loses, whatever the defuse field holds, and
   * the deck is refilled with the canonical five in their fixed order; the
   * defuse field is left as it was.
   */
  lemma ExplodingKittenRefills(st: StoreState, u: string)
    ensures var (e, post) := Handle(st, u, "Exploding Kitten");
      && e == Lost
      && DeckAt(post.decks, u) == Canonical
      && post.defuse == st.defuse
  {
    KindOfName(ExplodingKitten, "Exploding Kitten");
  }

  /**
   * A Shuffle card refills the deck with the canonical five in their fixed
   * order, so a reshuffle after a Shuffle card is always the same deck; the
   * defuse field is left as it was.
   */
  lemma ShuffleRefillsInOrder(st: StoreState, u: string)
    ensures var (e, post) := Handle(st, u, "Shuffle");
      && e == Reshuffled
      && DeckAt(post.decks, u) == Canonical
      && post.defuse == st.defuse
  {
    KindOfName(Shuffle, "Shuffle");
  }

  /** A Defuse card makes the defuse field read as 1, leaves other users' fields and the decks alone. */
  lemma DefuseSetsFlag(st: StoreState, u: string)
    ensures var (e, post) := Handle(st, u, "Defuse");
      && e == DefuseKept
      && post.decks == st.decks
      && post.defuse == st.defuse[u := "1"]
      && u in post.defuse && Atoi(post.defuse[u]) == Parsed(1, true)
  {
    KindOfName(Defuse, "Defuse");
    AtoiFormatInt(1);
  }

  /** A Cat, or any name the card table does not list, changes nothing. */
  lemma DefaultBranchChangesNothing(st: StoreState, u: string, drawn: string)
    requires drawn == "Cat" || drawn !in CardTypes
    ensures Handle(st, u, drawn) == (CatDrawn, st)
  {
    KindOfName(Cat, drawn);
  }

  /** The defuse field is never consulted: two stores with the same decks draw alike. */
  lemma DrawIgnoresDefuse(st1: StoreState, st2: StoreState, u: string, i: nat)
    requires st1.decks == st2.decks
    requires DeckAt(st1.decks, u) != [] ==> i < |DeckAt(st1.decks, u)|
    ensures Draw(st1, u, i).0 == Draw(st2, u, i).0
    ensures Draw(st1, u, i).1.decks == Draw(st2, u, i).1.decks
  {
  }

  /** Starting and drawing keep every deck within the canonical composition. */
  lemma StartKeepsDecksWithin(st: StoreState, u: string, picks: seq<nat>)
    requires ValidPicks(picks, 5)
    requires DecksWithin(st.decks)
    ensures DecksWithin(Start(st, u, picks).1.decks)
  {
    if DeckAt(st.decks, u) == [] {
      assert DeckAt(st.decks, u) + Shuffled(Canonical, picks) == Shuffled(Canonical, picks);
      DealKeepsWithin(st.decks, u, picks);
    }
  }

  /** Drawing keeps every deck within the canonical composition. */
  lemma DrawKeepsDecksWithin(st: StoreState, u: string, i: nat)
    requires DeckAt(st.decks, u) != [] ==> i < |DeckAt(st.decks, u)|
    requires DecksWithin(st.decks)
    ensures DecksWithin(Draw(st, u, i).1.decks)
  {
    var deck := DeckAt(st.decks, u);
    if deck != [] {
      var removed := st.decks[u := RemoveFirst(deck, deck[i])];
      RemoveKeepsWithin(st.decks, u, deck[i]);
      RefillKeepsWithin(removed, u);
    }
  }

  /* ---------------- The store as the handlers use it ---------------- */

  /** The store the handlers of this variant update in place. */
  class Store {
    var decks: map<string, seq<string>>
    var defuse: map<string, string>

    constructor ()
      ensures State() == StoreState(map[], map[])
    {
      decks, defuse := map[], map[];
    }

    function State(): StoreState
      reads this
    {
      StoreState(decks, defuse)
    }

    function DeckOf(u: string): seq<string>
      reads this
    {
      DeckAt(decks, u)
    }

    method InitializeDeck(u: string, picks: seq<nat>)
      requires ValidPicks(picks, 5)
      modifies this
      ensures State() == Initialized(old(State()), u, picks)
    {
      var shuffledDeck := ShuffledDeck(picks);
      decks := decks[u := DeckOf(u) + shuffledDeck];
    }

    method StartGame(u: string, picks: seq<nat>) returns (o: StartOutcome)
      requires ValidPicks(picks, 5)
      modifies this
      ensures (o, State()) == Start(old(State()), u, picks)
    {
      var existing := DeckOf(u);
      if |existing| > 0 {
        return Resumed(existing);
      }
      InitializeDeck(u, picks);
      var newDeck := DeckOf(u);
      o := Started(newDeck);
    }

    method ResetGame(u: string)
      modifies this
      ensures State() == Refilled(old(State()), u)
    {
      var deck := ["Cat", "Cat", "Defuse", "Shuffle", "Exploding Kitten"];
      ghost var before := decks;
      decks := decks - {u};
      assert DeckOf(u) == [];
      decks := decks[u := DeckOf(u) + deck];
      assert decks == before[u := Canonical] by {
        assert decks[u] == Canonical;
      }
    }

    method HandleDrawnCard(drawn: string, u: string) returns (e: Effect)
      modifies this
      ensures (e, State()) == Handle(old(State()), u, drawn)
    {
      match KindOf(drawn)
      case ExplodingKitten =>
        ResetGame(u);
        return Lost;
      case Defuse =>
        defuse := defuse[u := "1"];
        return DefuseKept;
      case Shuffle =>
        ResetGame(u);
        return Reshuffled;
      case _ =>
        return CatDrawn;
    }

    method DrawCard(u: string, i: nat) returns (o: DrawOutcome)
      requires DeckOf(u) != [] ==> i < |DeckOf(u)|
      modifies this
      ensures (o, State()) == Draw(old(State()), u, i)
    {
      var deck := DeckOf(u);
      if |deck| == 0 {
        return NoCardsLeft;
      }
      var drawnCard := deck[i];
      decks := decks[u := RemoveFirst(deck, drawnCard)];
      var e := HandleDrawnCard(drawnCard, u);
      o := Drawn(drawnCard, e);
    }
  }
}

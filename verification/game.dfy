/**
 * The per-user game state machine of the current server (main.go): a store
 * holding each user's deck as a list of card names, the `win` and `lose`
 * hashes of counters, and each user's `defuse` field, together with the
 * handlers that start a game, draw a card and resolve it, and the join of
 * the two counter hashes that feeds the leaderboard.
 */
module Game {
  import opened Cards
  import opened GoInts

  /** What a draw resolved to, once the card has been taken off the deck. */
  datatype Effect =
    | Defused      // an Exploding Kitten met a positive defuse count
    | Exploded     // an Exploding Kitten without one: a loss is recorded
    | DefuseKept   // a Defuse card: the defuse field is set
    | Reshuffled   // a Shuffle card: the game is reset
    | CatDrawn     // the default branch: Cat, or a name the card table does not list

  /** The reply of "draw card". */
  datatype DrawOutcome = NoCardsLeft | Drawn(card: string, effect: Effect)

  /** One leaderboard entry: the raw stored counter strings of one user. */
  datatype UserStats = UserStats(username: string, win: string, lose: string)

  /**
   * The tolerant counter read: a missing field counts as 0, and so does a
   * value that does not parse as a 64-bit integer.
   */
  function ReadCounter(hash: map<string, string>, u: string): (c: int)
    ensures InInt64(c)
    ensures u !in hash ==> c == 0
    ensures u in hash && Atoi(hash[u]).ok ==> c == Atoi(hash[u]).value
    ensures u in hash && !Atoi(hash[u]).ok ==> c == 0
  {
    if u !in hash then 0
    else
      var p := Atoi(hash[u]);
      if p.ok then p.value else 0
  }

  /**
   * One counter hash after the read-increment-write of one user's counter; a
   * failed read (other than a missing field) abandons the update.
   */
  function Bumped(hash: map<string, string>, u: string, readFails: bool): map<string, string>
  {
    if readFails then hash else hash[u := FormatInt(Inc64(ReadCounter(hash, u)))]
  }

  /** A completed update raises the counter read back by exactly one (with 64-bit wrap) and touches no other user. */
  lemma BumpedIncrements(hash: map<string, string>, u: string)
    ensures ReadCounter(Bumped(hash, u, false), u) == Inc64(ReadCounter(hash, u))
    ensures ReadCounter(hash, u) < MaxInt64 ==> ReadCounter(Bumped(hash, u, false), u) == ReadCounter(hash, u) + 1
    ensures forall v :: v != u ==> (v in Bumped(hash, u, false) <==> v in hash)
    ensures forall v :: v != u && v in hash ==> Bumped(hash, u, false)[v] == hash[v]
  {
    AtoiFormatInt(Inc64(ReadCounter(hash, u)));
  }

  /**
   * The defuse count seen when an Exploding Kitten is drawn: the field parsed
   * with its error ignored. A missing field, or a failed read, gives the
   * empty string and hence 0.
   */
  function DefuseCount(defuse: map<string, string>, u: string, readFails: bool): (n: int)
    ensures InInt64(n)
    ensures readFails || u !in defuse ==> n == 0
    ensures !readFails && u in defuse ==> n == Atoi(defuse[u]).value
  {
    Atoi(if readFails || u !in defuse then "" else defuse[u]).value
  }

  /** The only values the handlers write to the defuse field are read back as they were meant. */
  lemma DefuseWrittenValues(defuse: map<string, string>, u: string)
    ensures DefuseCount(defuse[u := "1"], u, false) == 1
    ensures DefuseCount(defuse[u := "0"], u, false) == 0
  {
    AtoiFormatInt(1);
    AtoiFormatInt(0);
  }

  /**
   * A present defuse field whose text reaches a non-digit before its digits
   * overflow (such as "abc", "1x" or "") counts as 0.
   */
  lemma DefuseCountMalformed(defuse: map<string, string>, u: string, k: nat)
    requires u in defuse
    requires k < |Unsigned(defuse[u])| && !IsDigit(Unsigned(defuse[u])[k])
    requires ScanDigits(Unsigned(defuse[u])[..k], 0).Digits?
    ensures DefuseCount(defuse, u, false) == 0
  {
    AtoiNonDigit(defuse[u], k);
  }

  /**
   * A present defuse field that starts with more digits than fit in 64 bits,
   * without a minus sign, counts as the largest `int`, whatever follows the
   * digits: the parse error is discarded and the clamped value kept.
   */
  lemma DefuseCountOverflow(defuse: map<string, string>, u: string, k: nat)
    requires u in defuse && !Negative(defuse[u])
    requires k <= |Unsigned(defuse[u])|
    requires ScanDigits(Unsigned(defuse[u])[..k], 0).RangeError?
    ensures DefuseCount(defuse, u, false) == MaxInt64
  {
    AtoiOverflowingPrefix(defuse[u], k);
  }

  /** `order` lists every key of `hash` exactly once (the hash's iteration order). */
  ghost predicate Enumerates(order: seq<string>, hash: map<string, string>)
  {
    && (forall name :: name in order <==> name in hash)
    && (forall k, l :: 0 <= k < l < |order| ==> order[k] != order[l])
  }

  /**
   * The leaderboard join: one entry per user of the `win` hash, in the
   * hash's iteration order, with the `lose` value of that user or "0".
   */
  function FetchAllUserStats(win: map<string, string>, lose: map<string, string>, order: seq<string>): (r: seq<UserStats>)
    requires Enumerates(order, win)
    ensures |r| == |win|
    ensures forall name :: name in win <==> exists k :: 0 <= k < |r| && r[k].username == name
    ensures forall k, l :: 0 <= k < l < |r| ==> r[k].username != r[l].username
    ensures forall k :: 0 <= k < |r| ==>
      && r[k].win == win[r[k].username]
      && r[k].lose == (if r[k].username in lose then lose[r[k].username] else "0")
  {
    EnumerationSize(order, win);
    var r := seq(|order|, k requires 0 <= k < |order| =>
      var name := order[k];
      UserStats(name, win[name], if name in lose then lose[name] else "0"));
    assert forall k :: 0 <= k < |r| ==> r[k].username == order[k];
    r
  }

  /** A user who has a `lose` entry but no `win` entry is missing from the leaderboard. */
  lemma LoseOnlyUsersOmitted(win: map<string, string>, lose: map<string, string>, order: seq<string>, name: string)
    requires Enumerates(order, win)
    requires name in lose && name !in win
    ensures forall e :: e in FetchAllUserStats(win, lose, order) ==> e.username != name
  {
    var r := FetchAllUserStats(win, lose, order);
    forall e | e in r ensures e.username != name {
      var k :| 0 <= k < |r| && r[k] == e;
    }
  }

  lemma {:induction false} EnumerationSize(order: seq<string>, hash: map<string, string>)
    requires Enumerates(order, hash)
    ensures |order| == |hash|
  {
    var keys := set k | 0 <= k < |order| :: order[k];
    assert keys == hash.Keys;
    DistinctSize(order);
  }

  lemma {:induction false} DistinctSize(order: seq<string>)
    requires forall k, l :: 0 <= k < l < |order| ==> order[k] != order[l]
    ensures |set k | 0 <= k < |order| :: order[k]| == |order|
  {
    if order != [] {
      var init := order[..|order| - 1];
      DistinctSize(init);
      var last := order[|order| - 1];
      assert (set k | 0 <= k < |order| :: order[k]) == (set k | 0 <= k < |init| :: init[k]) + {last};
      assert last !in (set k | 0 <= k < |init| :: init[k]);
    }
  }

  /* ---------------- The store and its transitions ---------------- */

  /** The contents of the store: decks by user, the `win` and `lose` hashes, and each user's defuse field. */
  datatype StoreState = StoreState(
    decks: map<string, seq<string>>,
    win: map<string, string>,
    lose: map<string, string>,
    defuse: map<string, string>)

  /** Deck creation: the canonical five, shuffled, appended to the user's list. */
  function Initialized(st: StoreState, u: string, picks: seq<nat>): StoreState
    requires ValidPicks(picks, 5)
  {
    st.(decks := st.decks[u := DeckAt(st.decks, u) + Shuffled(Canonical, picks)])
  }

  /**
   * Start game: a non-empty deck is resumed as it is; otherwise a deck is
   * created, read back, and both counters of the user are set to "0".
   */
  function Start(st: StoreState, u: string, picks: seq<nat>): (StartOutcome, StoreState)
    requires ValidPicks(picks, 5)
  {
    var existing := DeckAt(st.decks, u);
    if |existing| > 0 then (Resumed(existing), st)
    else
      var created := Initialized(st, u, picks);
      (Started(DeckAt(created.decks, u)), created.(win := created.win[u := "0"], lose := created.lose[u := "0"]))
  }

  /** The stats update of one user: the `win` or the `lose` counter goes through a read-increment-write. */
  function StatsUpdated(st: StoreState, u: string, isWin: bool, readFails: bool): StoreState
  {
    if isWin then st.(win := Bumped(st.win, u, readFails))
    else st.(lose := Bumped(st.lose, u, readFails))
  }

  /** Reset: the user's deck is replaced by the shuffled canonical five and the defuse field set to "0". */
  function Reset(st: StoreState, u: string, picks: seq<nat>): StoreState
    requires ValidPicks(picks, 5)
  {
    st.(decks := st.decks[u := Shuffled(Canonical, picks)], defuse := st.defuse[u := "0"])
  }

  /** Resolution of a card already taken off the deck: the switch on the type the card table gives. */
  function Handle(st: StoreState, u: string, drawn: string, picks: seq<nat>, statsReadFails: bool, defuseReadFails: bool)
    : (Effect, StoreState)
    requires ValidPicks(picks, 5)
  {
    match KindOf(drawn)
    case ExplodingKitten =>
      if DefuseCount(st.defuse, u, defuseReadFails) > 0 then (Defused, st.(defuse := st.defuse[u := "0"]))
      else (Exploded, StatsUpdated(st, u, false, statsReadFails))
    case Defuse => (DefuseKept, st.(defuse := st.defuse[u := "1"]))
    case Shuffle => (Reshuffled, Reset(st, u, picks))
    case _ => (CatDrawn, st)
  }

  /**
   * Draw: an empty or missing deck records a win; otherwise the card at
   * position `i` is drawn, the first card of that name is removed from the
   * list, and the card is resolved.
   */
  function Draw(st: StoreState, u: string, i: nat, picks: seq<nat>, statsReadFails: bool, defuseReadFails: bool)
    : (DrawOutcome, StoreState)
    requires ValidPicks(picks, 5)
    requires DeckAt(st.decks, u) != [] ==> i < |DeckAt(st.decks, u)|
  {
    var deck := DeckAt(st.decks, u);
    if deck == [] then (NoCardsLeft, StatsUpdated(st, u, true, statsReadFails))
    else
      var card := deck[i];
      var (e, post) := Handle(st.(decks := st.decks[u := RemoveFirst(deck, card)]), u, card, picks, statsReadFails, defuseReadFails);
      (Drawn(card, e), post)
  }

  /* ---------------- Properties of the transitions ---------------- */

  /** Start game on a non-empty deck returns that deck and writes nothing. */
  lemma StartGameResumes(st: StoreState, u: string, picks: seq<nat>)
    requires ValidPicks(picks, 5)
    requires DeckAt(st.decks, u) != []
    ensures Start(st, u, picks) == (Resumed(DeckAt(st.decks, u)), st)
  {
  }

  /**
   * Start game on an empty or missing deck stores a permutation of the
   * canonical five, returns it, and resets both counters of the user to 0
   * whatever they held; the defuse field and other users' entries stay.
   */
  lemma {:induction false} StartGameCreates(st: StoreState, u: string, picks: seq<nat>)
    requires ValidPicks(picks, 5)
    requires DeckAt(st.decks, u) == []
    ensures var (o, post) := Start(st, u, picks);
      && o.Started?
      && |o.deck| == 5 && multiset(o.deck) == multiset(Canonical)
      && post.decks == st.decks[u := o.deck]
      && post.win == st.win[u := "0"] && post.lose == st.lose[u := "0"]
      && ReadCounter(post.win, u) == 0 && ReadCounter(post.lose, u) == 0
      && post.defuse == st.defuse
      && (forall v :: v != u ==> ReadCounter(post.win, v) == ReadCounter(st.win, v))
      && (forall v :: v != u ==> ReadCounter(post.lose, v) == ReadCounter(st.lose, v))
  {
    ShuffledCanonical(picks);
    assert DeckAt(st.decks, u) + Shuffled(Canonical, picks) == Shuffled(Canonical, picks);
    var created := Initialized(st, u, picks);
    assert DeckAt(created.decks, u) == Shuffled(Canonical, picks);
    CounterZeroed(created.win, u);
    CounterZeroed(created.lose, u);
  }

  /** Writing "0" to a counter makes it read as 0 and leaves other users' counters as they read. */
  lemma CounterZeroed(hash: map<string, string>, u: string)
    ensures ReadCounter(hash[u := "0"], u) == 0
    ensures forall v :: v != u ==> ReadCounter(hash[u := "0"], v) == ReadCounter(hash, v)
  {
    AtoiFormatInt(0);
  }

  /** Starting twice in a row: the second start resumes exactly the deck of the first and changes nothing. */
  lemma StartGameIdempotent(st: StoreState, u: string, picks1: seq<nat>, picks2: seq<nat>)
    requires ValidPicks(picks1, 5) && ValidPicks(picks2, 5)
    ensures var (first, mid) := Start(st, u, picks1);
      Start(mid, u, picks2) == (Resumed(first.deck), mid)
  {
    if DeckAt(st.decks, u) == [] {
      StartGameCreates(st, u, picks1);
    }
  }

  /**
   * Drawing from an empty or missing deck raises the user's win counter by
   * one (a missing or malformed value counting as 0), unless the read fails,
   * and changes nothing else.
   */
  lemma DrawFromEmptyDeck(st: StoreState, u: string, i: nat, picks: seq<nat>, statsReadFails: bool, defuseReadFails: bool)
    requires ValidPicks(picks, 5)
    requires DeckAt(st.decks, u) == []
    ensures var (o, post) := Draw(st, u, i, picks, statsReadFails, defuseReadFails);
      && o == NoCardsLeft
      && post.decks == st.decks && post.lose == st.lose && post.defuse == st.defuse
      && (statsReadFails ==> post.win == st.win)
      && (!statsReadFails ==> ReadCounter(post.win, u) == Inc64(ReadCounter(st.win, u)))
      && (forall v :: v != u ==> (v in post.win <==> v in st.win))
      && (forall v :: v != u && v in st.win ==> post.win[v] == st.win[v])
  {
    BumpedIncrements(st.win, u);
  }

  /**
   * A draw from a non-empty deck returns the card at the chosen position.
   * Unless that card is a Shuffle, the user's deck afterwards is the old one
   * with the first card of that name cut out, one card shorter. No other
   * user's deck changes.
   */
  lemma DrawRemovesFirstOccurrence(st: StoreState, u: string, i: nat, picks: seq<nat>, statsReadFails: bool, defuseReadFails: bool)
    requires ValidPicks(picks, 5)
    requires DeckAt(st.decks, u) != [] && i < |DeckAt(st.decks, u)|
    ensures var deck := DeckAt(st.decks, u);
      var (o, post) := Draw(st, u, i, picks, statsReadFails, defuseReadFails);
      && o.Drawn? && o.card == deck[i]
      && (KindOf(o.card) != Shuffle ==>
            && DeckAt(post.decks, u) == deck[..FirstIndex(deck, o.card)] + deck[FirstIndex(deck, o.card) + 1..]
            && |DeckAt(post.decks, u)| == |deck| - 1)
      && (forall v :: v != u ==> DeckAt(post.decks, v) == DeckAt(st.decks, v))
  {
    var deck := DeckAt(st.decks, u);
    assert deck[i] in deck;
    RemoveFirstSplice(deck, deck[i]);
  }

  /** An Exploding Kitten met by a positive defuse count clears the field and leaves the counters and the rest of the deck alone. */
  lemma ExplodingKittenDefused(st: StoreState, u: string, picks: seq<nat>, statsReadFails: bool, defuseReadFails: bool)
    requires ValidPicks(picks, 5)
    requires DefuseCount(st.defuse, u, defuseReadFails) > 0
    ensures var (e, post) := Handle(st, u, "Exploding Kitten", picks, statsReadFails, defuseReadFails);
      && e == Defused
      && post.decks == st.decks && post.win == st.win && post.lose == st.lose
      && post.defuse == st.defuse[u := "0"]
      && DefuseCount(post.defuse, u, false) == 0
  {
    KindOfName(ExplodingKitten, "Exploding Kitten");
    DefuseWrittenValues(st.defuse, u);
  }

  /**
   * An Exploding Kitten without a positive defuse count (missing, malformed
   * or at most 0) is a loss: the lose counter goes up by one unless the read
   * fails, the win counter is untouched, and the deck is not refilled.
   */
  lemma ExplodingKittenLoses(st: StoreState, u: string, picks: seq<nat>, statsReadFails: bool, defuseReadFails: bool)
    requires ValidPicks(picks, 5)
    requires DefuseCount(st.defuse, u, defuseReadFails) <= 0
    ensures var (e, post) := Handle(st, u, "Exploding Kitten", picks, statsReadFails, defuseReadFails);
      && e == Exploded
      && post.decks == st.decks && post.win == st.win && post.defuse == st.defuse
      && (statsReadFails ==> post.lose == st.lose)
      && (!statsReadFails ==> ReadCounter(post.lose, u) == Inc64(ReadCounter(st.lose, u)))
      && (forall v :: v != u ==> (v in post.lose <==> v in st.lose))
      && (forall v :: v != u && v in st.lose ==> post.lose[v] == st.lose[v])
  {
    KindOfName(ExplodingKitten, "Exploding Kitten");
    BumpedIncrements(st.lose, u);
  }

  /** An Exploding Kitten against a present but malformed defuse field is a loss. */
  lemma KittenAgainstMalformedDefuse(st: StoreState, u: string, picks: seq<nat>, statsReadFails: bool, k: nat)
    requires ValidPicks(picks, 5)
    requires u in st.defuse
    requires k < |Unsigned(st.defuse[u])| && !IsDigit(Unsigned(st.defuse[u])[k])
    requires ScanDigits(Unsigned(st.defuse[u])[..k], 0).Digits?
    ensures Handle(st, u, "Exploding Kitten", picks, statsReadFails, false).0 == Exploded
  {
    KindOfName(ExplodingKitten, "Exploding Kitten");
    DefuseCountMalformed(st.defuse, u, k);
  }

  /**
   * An Exploding Kitten against a defuse field that starts with an
   * overflowing run of digits is defused, even when the field is not a
   * number at all.
   */
  lemma KittenAgainstOverflowingDefuse(st: StoreState, u: string, picks: seq<nat>, statsReadFails: bool, k: nat)
    requires ValidPicks(picks, 5)
    requires u in st.defuse && !Negative(st.defuse[u])
    requires k <= |Unsigned(st.defuse[u])|
    requires ScanDigits(Unsigned(st.defuse[u])[..k], 0).RangeError?
    ensures Handle(st, u, "Exploding Kitten", picks, statsReadFails, false).0 == Defused
  {
    KindOfName(ExplodingKitten, "Exploding Kitten");
    DefuseCountOverflow(st.defuse, u, k);
  }

  /** A concrete malformed defuse field: "abc" loses. */
  lemma MalformedDefuseExample(st: StoreState, u: string, picks: seq<nat>, statsReadFails: bool)
    requires ValidPicks(picks, 5)
    ensures Handle(st.(defuse := st.defuse[u := "abc"]), u, "Exploding Kitten", picks, statsReadFails, false).0 == Exploded
  {
    var bad := st.(defuse := st.defuse[u := "abc"]);
    assert Unsigned(bad.defuse[u])[..0] == [];
    KittenAgainstMalformedDefuse(bad, u, picks, statsReadFails, 0);
  }

  /**
   * A defuse field starting with twenty nines, such as
   * "99999999999999999999x", defuses an Exploding Kitten whatever follows
   * the nines.
   */
  lemma TwentyNinesDefuse(st: StoreState, u: string, picks: seq<nat>, statsReadFails: bool)
    requires ValidPicks(picks, 5)
    requires u in st.defuse && |st.defuse[u]| >= 20
    requires forall k :: 0 <= k < 20 ==> st.defuse[u][k] == '9'
    ensures Handle(st, u, "Exploding Kitten", picks, statsReadFails, false).0 == Defused
  {
    var field := st.defuse[u];
    assert Unsigned(field) == field;
    TwentyNinesOverflow(field[..20]);
    KittenAgainstOverflowingDefuse(st, u, picks, statsReadFails, 20);
  }

  /** A Defuse card sets the defuse count to exactly 1, whatever it was, and changes nothing else. */
  lemma DefuseSetsFlag(st: StoreState, u: string, picks: seq<nat>, statsReadFails: bool, defuseReadFails: bool)
    requires ValidPicks(picks, 5)
    ensures var (e, post) := Handle(st, u, "Defuse", picks, statsReadFails, defuseReadFails);
      && e == DefuseKept
      && post.decks == st.decks && post.win == st.win && post.lose == st.lose
      && post.defuse == st.defuse[u := "1"]
      && DefuseCount(post.defuse, u, false) == 1
  {
    KindOfName(Defuse, "Defuse");
    DefuseWrittenValues(st.defuse, u);
  }

  /**
   * A Shuffle card discards the user's deck for a permutation of the
   * canonical five and clears the defuse count; the counters stay.
   */
  lemma ShuffleResets(st: StoreState, u: string, picks: seq<nat>, statsReadFails: bool, defuseReadFails: bool)
    requires ValidPicks(picks, 5)
    ensures var (e, post) := Handle(st, u, "Shuffle", picks, statsReadFails, defuseReadFails);
      && e == Reshuffled
      && post.decks == st.decks[u := Shuffled(Canonical, picks)]
      && DeckAt(post.decks, u) == Shuffled(Canonical, picks)
      && |DeckAt(post.decks, u)| == 5 && multiset(DeckAt(post.decks, u)) == multiset(Canonical)
      && post.defuse == st.defuse[u := "0"]
      && DefuseCount(post.defuse, u, false) == 0
      && post.win == st.win && post.lose == st.lose
  {
    KindOfName(Shuffle, "Shuffle");
    var post := Reset(st, u, picks);
    assert Handle(st, u, "Shuffle", picks, statsReadFails, defuseReadFails) == (Reshuffled, post);
    var deck := Shuffled(Canonical, picks);
    assert DeckAt(post.decks, u) == deck;
    ShuffledCanonical(picks);
    DefuseWrittenValues(st.defuse, u);
  }

  /** A Cat, or any name the card table does not list, changes nothing. */
  lemma DefaultBranchChangesNothing(st: StoreState, u: string, drawn: string, picks: seq<nat>, statsReadFails: bool, defuseReadFails: bool)
    requires ValidPicks(picks, 5)
    requires drawn == "Cat" || drawn !in CardTypes
    ensures Handle(st, u, drawn, picks, statsReadFails, defuseReadFails) == (CatDrawn, st)
  {
    KindOfName(Cat, drawn);
  }

  /** Starting keeps every deck within the canonical composition. */
  lemma StartKeepsDecksWithin(st: StoreState, u: string, picks: seq<nat>)
    requires ValidPicks(picks, 5)
    requires DecksWithin(st.decks)
    ensures DecksWithin(Start(st, u, picks).1.decks)
  {
    if DeckAt(st.decks, u) == [] {
      assert DeckAt(st.decks, u) + Shuffled(Canonical, picks) == Shuffled(Canonical, picks);
      DealKeepsWithin(st.decks, u, picks);
    }
  }

  /** Drawing keeps every deck within the canonical composition. */
  lemma DrawKeepsDecksWithin(st: StoreState, u: string, i: nat, picks: seq<nat>, statsReadFails: bool, defuseReadFails: bool)
    requires ValidPicks(picks, 5)
    requires DeckAt(st.decks, u) != [] ==> i < |DeckAt(st.decks, u)|
    requires DecksWithin(st.decks)
    ensures DecksWithin(Draw(st, u, i, picks, statsReadFails, defuseReadFails).1.decks)
  {
    var deck := DeckAt(st.decks, u);
    if deck != [] {
      var removed := st.decks[u := RemoveFirst(deck, deck[i])];
      RemoveKeepsWithin(st.decks, u, deck[i]);
      DealKeepsWithin(removed, u, picks);
    }
  }

  /** In a store whose decks are within the canonical composition, no deck holds more than five cards. */
  lemma DecksAtMostFive(decks: map<string, seq<string>>, u: string)
    requires DecksWithin(decks)
    ensures |DeckAt(decks, u)| <= 5
  {
    if u in decks {
      WithinCanonicalBounds(decks[u]);
    }
  }

  /* ---------------- The store as the handlers use it ---------------- */

  /** The store the handlers update in place. */
  class Store {
    var decks: map<string, seq<string>>
    var win: map<string, string>
    var lose: map<string, string>
    var defuse: map<string, string>

    constructor ()
      ensures State() == StoreState(map[], map[], map[], map[])
    {
      decks, win, lose, defuse := map[], map[], map[], map[];
    }

    function State(): StoreState
      reads this
    {
      StoreState(decks, win, lose, defuse)
    }

    function DeckOf(u: string): seq<string>
      reads this
    {
      DeckAt(decks, u)
    }

    method InitializeDeck(u: string, picks: seq<nat>)
      requires ValidPicks(picks, 5)
      modifies this
      ensures State() == Initialized(old(State()), u, picks)
    {
      var shuffled := ShuffledDeck(picks);
      decks := decks[u := DeckOf(u) + shuffled];
    }

    method StartGame(u: string, picks: seq<nat>) returns (o: StartOutcome)
      requires ValidPicks(picks, 5)
      modifies this
      ensures (o, State()) == Start(old(State()), u, picks)
    {
      var existing := DeckOf(u);
      if |existing| > 0 {
        return Resumed(existing);
      }
      InitializeDeck(u, picks);
      var newDeck := DeckOf(u);
      win := win[u := "0"];
      lose := lose[u := "0"];
      o := Started(newDeck);
    }

    method UpdateUserStats(u: string, isWin: bool, readFails: bool)
      modifies this
      ensures State() == StatsUpdated(old(State()), u, isWin, readFails)
    {
      if isWin {
        if readFails {
          return;
        }
        var winCount := ReadCounter(win, u);
        win := win[u := FormatInt(Inc64(winCount))];
      } else {
        if readFails {
          return;
        }
        var loseCount := ReadCounter(lose, u);
        lose := lose[u := FormatInt(Inc64(loseCount))];
      }
    }

    method ResetGame(u: string, picks: seq<nat>)
      requires ValidPicks(picks, 5)
      modifies this
      ensures State() == Reset(old(State()), u, picks)
    {
      var deck := ShuffledDeck(picks);
      var randomCards := deck[..5];
      assert randomCards == deck;
      ghost var before := decks;
      decks := decks - {u};
      assert DeckOf(u) == [];
      decks := decks[u := DeckOf(u) + randomCards];
      assert decks == before[u := deck] by {
        assert decks[u] == deck;
      }
      defuse := defuse[u := "0"];
    }

    method HandleDrawnCard(drawn: string, u: string, picks: seq<nat>, statsReadFails: bool, defuseReadFails: bool)
      returns (e: Effect)
      requires ValidPicks(picks, 5)
      modifies this
      ensures (e, State()) == Handle(old(State()), u, drawn, picks, statsReadFails, defuseReadFails)
    {
      match KindOf(drawn)
      case ExplodingKitten =>
        var hasDefuse := if defuseReadFails || u !in defuse then "" else defuse[u];
        var defuseCount := Atoi(hasDefuse).value;
        if defuseCount > 0 {
          defuse := defuse[u := "0"];
          return Defused;
        }
        UpdateUserStats(u, false, statsReadFails);
        return Exploded;
      case Defuse =>
        defuse := defuse[u := "1"];
        return DefuseKept;
      case Shuffle =>
        ResetGame(u, picks);
        return Reshuffled;
      case _ =>
        return CatDrawn;
    }

    method DrawCard(u: string, i: nat, picks: seq<nat>, statsReadFails: bool, defuseReadFails: bool)
      returns (o: DrawOutcome)
      requires ValidPicks(picks, 5)
      requires DeckOf(u) != [] ==> i < |DeckOf(u)|
      modifies this
      ensures (o, State()) == Draw(old(State()), u, i, picks, statsReadFails, defuseReadFails)
    {
      var deck := DeckOf(u);
      if |deck| == 0 {
        UpdateUserStats(u, true, statsReadFails);
        return NoCardsLeft;
      }
      var drawnCard := deck[i];
      decks := decks[u := RemoveFirst(deck, drawnCard)];
      var e := HandleDrawnCard(drawnCard, u, picks, statsReadFails, defuseReadFails);
      o := Drawn(drawnCard, e);
    }
  }
}

# Exploding Kittens game server — Dafny model

This project models the game logic of a small single-player card-game
server. Each user plays against a five-card deck: `Cat`, `Cat`, `Defuse`,
`Shuffle` and `Exploding Kitten`. The server keeps its state in a key-value
store:
- each user's deck, as a list of card names;
- `win` and `lose` hashes of per-user counters;
- a per-user `defuse` field.

There are two versions of the handlers. The current server (`main.go`) has
these operations:
- *start game* resumes a non-empty deck, or creates a shuffled deck and zeroes the user's counters;
- *draw card* takes a card at a random position and removes the first card of that name from the list;
- *handle drawn card* resolves the card: a kitten is defused or recorded as a loss, a Defuse card sets the defuse field, a Shuffle card resets the game, and a Cat changes nothing;
- *update user stats* is a tolerant read-increment-write of a counter;
- *fetch all user stats* joins the two counter hashes for the leaderboard.

The earlier server (`main2.go`) has no counters. In it a kitten always loses,
and both a kitten and a Shuffle card refill the deck in its fixed,
unshuffled order.

Modules:
- `Cards` holds what both versions share:
  - the card-table lookup;
  - the canonical deck;
  - the in-place Fisher–Yates shuffle (`rand.Shuffle` with a swap closure), run over an `array`;
  - the list removal with count 1.
- `GoInts` models Go's `strconv.Atoi` for a 64-bit `int`, including range clamping. It also models the decimal formatting an `int` gets when it is written to the store, and the 64-bit wrap of `n + 1`.
- `Game` models `main.go`.
- `GameV2` models `main2.go`.

Each server module has two layers:
- a value `StoreState` with pure transition functions (`Start`, `Draw`, `Handle`, …) that the lemmas are about;
- a `Store` class whose fields the handlers update in place. Each method is proved to move the store exactly as the matching transition function does.

Randomness is supplied by the caller:
- a shuffle is a sequence `picks` with `picks[k] <= k`, because Go's `rand.Shuffle` swaps position `k` with a position drawn from `0..k`, for `k` from `n-1` down to 1;
- a draw is an index `i` below the deck's length.

Store values are strings, as the store keeps them. A counter is read through
`Atoi`, and a missing or unparsable value counts as 0. A counter is written
through `FormatInt`.

Where the intended game rules and the code disagree, the model follows the code:
- In `main.go`, drawing from an empty or missing deck records a **win**.
- In `main.go`, an Exploding Kitten without a defuse does not reset the deck.
- In `main2.go`, the Shuffle card's reset does not shuffle.

Decks hold card *names*, not an enumeration. A name the card table does not
list (possible only if the store holds one) goes through the default branch,
like a Cat.

## Model

| member | source | states |
|---|---|---|
| Cards.Name | main.go:24-29 | every listed kind has a name that is in the card table |
| Cards.LookupType | main.go:286-293 | the card-type scan returns the drawn string when the table lists it, and "" otherwise |
| Cards.KindOfName | main.go:286-297 | the switch picks a listed kind exactly when the drawn string is in the card table, and then the kind's name is that string; every listed kind's name selects that kind |
| Cards.KindOf | main.go:286-297 | (definition) the switch branch a drawn string selects: the kind whose table type the lookup returns, `Unlisted` when it returns "" |
| Cards.SwapPermutes | main.go:90-92 | one swap by the closure keeps the multiset of cards |
| Cards.Swap | main.go:90-92 | (definition) the closure: exchange the elements at `i` and `j`; the length is kept |
| Cards.ShuffledBelow | main.go:89-92 | (definition) the shuffle's remaining swaps at positions i-1 down to 1, position k with `picks[k]` |
| Cards.Shuffled | main.go:89-92 | (definition) the whole shuffle: swaps at positions n-1 down to 1 |
| Cards.ShuffledBelowPermutes | main.go:89-92 | any run of the shuffle keeps the length and the multiset of the slice |
| Cards.ShuffleInPlace | main.go:89-92 | the in-place shuffle leaves the array equal to the shuffle specification applied to its old contents, and a permutation of them |
| Cards.ShuffledCanonical | main.go:84-92 | a shuffled canonical deck has 5 cards and the same multiset as `Cat, Cat, Defuse, Shuffle, Exploding Kitten` |
| Cards.ShuffledIdentity | main.go:89-92 | choosing every position itself leaves the slice in its original order |
| Cards.CanonicalOrderIsDealt | main2.go:224-234 | the fixed-order refill of the earlier server is one of the decks the shuffle of main.go:89-92 can deal |
| Cards.ShuffledDeck | main.go:84-92 | building the five-card slice and shuffling it yields the shuffle specification of the canonical deck, of length 5 |
| Cards.WithinCanonicalBounds | main.go:85-87 | a deck within the canonical composition has at most 5 cards, each of a kind the table lists |
| Cards.RemoveFirst | main.go:200-201 | removal with count 1 shortens the list by one when the card is present and leaves it unchanged when absent |
| Cards.RemoveFirstMultiset | main.go:200-201 | removal takes exactly one copy of the card out of the deck's multiset |
| Cards.FirstIndex | main.go:200-201 | the index found holds the card and no earlier position does |
| Cards.RemoveFirstSplice | main.go:200-201 | removal cuts out exactly the first occurrence and keeps the order of the rest |
| Cards.RemoveKeepsWithin | main.go:200-201 | removing a card keeps every deck within the canonical composition |
| Cards.DealKeepsWithin | main.go:373-376 | storing a shuffled canonical deck keeps every deck within the canonical composition |
| Cards.RefillKeepsWithin | main2.go:224-234 | storing the canonical deck keeps every deck within the canonical composition |
| GoInts.ScanDigits | main.go:227 | a successful digit scan consumed only digits, and its value lies between the accumulated value and 2^64-1 |
| GoInts.Atoi | main.go:227-231 | the parsed value is a 64-bit int; an empty digit part or a syntax error gives (0, error); a range error gives the bound on the sign's side with an error; a scanned value gives itself with its sign when it fits and the clamped bound with an error when it does not |
| GoInts.AtoiNonDigit | main.go:227-231 | a non-digit reached before the digits overflow makes the string read as (0, error), whatever follows |
| GoInts.AtoiOverflowingPrefix | main.go:227-231 | a digit run that exceeds 2^64-1 makes the string read as the bound on its sign's side, whatever follows |
| GoInts.ScanNines | main.go:227 | scanning a run of nines grows the value to (acc+1)*10^len - 1 when it fits in 64 unsigned bits, and is a range error otherwise |
| GoInts.TwentyNinesOverflow | main.go:227 | twenty nines are a range error |
| GoInts.Decimal | main.go:239 | a non-empty string of digits |
| GoInts.FormatInt | main.go:239 | a non-empty string |
| GoInts.ScanAppend | main.go:227 | scanning a concatenation scans the first part and continues from its value |
| GoInts.ScanDecimal | main.go:227 | scanning the decimal digits of n yields n |
| GoInts.AtoiFormatInt | main.go:227-239 | every 64-bit int written to the store reads back as itself, without error |
| GoInts.Inc64 | main.go:235 | `n + 1` on a 64-bit int: n + 1, or the smallest value when n is the largest |
| Game.ReadCounter | main.go:216-232 | a missing field or an unparsable value reads as 0, and a parsable one as its value |
| Game.Bumped | main.go:212-280 | (definition) the read-increment-write of one counter hash, abandoned on a failed read; its meaning is stated by BumpedIncrements |
| Game.BumpedIncrements | main.go:212-280 | after a completed update the counter reads back as one more than before (64-bit wrap); no other user's entry changes |
| Game.DefuseCount | main.go:300-307 | a failed read or a missing field gives 0; a present field gives Atoi's value with the error discarded |
| Game.DefuseCountMalformed | main.go:300-307 | a present field that reaches a non-digit before overflowing (e.g. "abc") counts as 0 |
| Game.DefuseCountOverflow | main.go:300-307 | a present unsigned field starting with digits beyond 2^64-1 counts as the largest int, whatever follows |
| Game.DefuseWrittenValues | main.go:313-332 | the values written to the defuse field, 1 and 0, read back as 1 and 0 |
| Game.FetchAllUserStats | main.go:467-502 | exactly one record per user in `win`, no user twice, with that user's `win` value and their `lose` value or "0" |
| Game.LoseOnlyUsersOmitted | main.go:484-498 | a user with only a `lose` entry gets no record |
| Game.EnumerationSize | main.go:484 | iterating over a hash visits as many names as the hash has keys |
| Game.DistinctSize | main.go:484 | distinct visited names form a set of the same size |
| Game.Initialized | main.go:78-105 | (definition) deck creation: the shuffled canonical five appended to the user's list |
| Game.Start | main.go:108-164 | (definition) start game: resume a non-empty deck; otherwise create one, return it and write 0 to both counters |
| Game.StatsUpdated | main.go:212-280 | (definition) the stats update: `Bumped` applied to `win` or to `lose` |
| Game.Reset | main.go:354-380 | (definition) reset: the user's deck becomes the shuffled canonical five, and the defuse field "0" |
| Game.Handle | main.go:282-352 | (definition) the card switch: defuse or lose on a kitten by the defuse count, set the field on Defuse, reset on Shuffle, nothing otherwise |
| Game.Draw | main.go:166-210 | (definition) draw: a win on an empty deck; otherwise card `i`, removal of its first occurrence, then `Handle` |
| Game.StartGameResumes | main.go:121-138 | a non-empty deck is returned as it is, and the store does not change |
| Game.StartGameCreates | main.go:140-163 | an empty or missing deck is replaced by a stored 5-card permutation of the canonical deck, which is returned; both counters of the user are overwritten with "0" and read 0 whatever they held; defuse and every other user's raw counter entries are unchanged |
| Game.CounterZeroed | main.go:155-156 | writing 0 makes the counter read 0 and leaves other users' counters |
| Game.StartGameIdempotent | main.go:108-164 | a second start right after a first resumes the same deck and changes nothing |
| Game.DrawFromEmptyDeck | main.go:185-191 | drawing from an empty or missing deck records a win: the win counter goes up by one unless the read fails; every other user's raw `win` entry, the decks, `lose` and `defuse` are unchanged |
| Game.DrawRemovesFirstOccurrence | main.go:193-209 | the card returned is `deck[i]`; unless it is a Shuffle, the deck loses exactly the first card of that name and gets one shorter; other users' decks are unchanged |
| Game.ExplodingKittenDefused | main.go:298-318 | a kitten met by a positive defuse count writes "0" to the user's defuse field only, so it counts 0; decks and counters stay |
| Game.ExplodingKittenLoses | main.go:320-325 | a kitten without a positive defuse count raises `lose` by one unless the read fails, and every other user's raw `lose` entry stays; `win`, `defuse` and the decks stay, so the deck is not refilled |
| Game.KittenAgainstMalformedDefuse | main.go:298-325 | a kitten against a present field that reaches a non-digit before overflowing is a loss |
| Game.KittenAgainstOverflowingDefuse | main.go:298-318 | a kitten against a present unsigned field whose digits overflow is defused, even if the field is not a number |
| Game.MalformedDefuseExample | main.go:298-325 | the field "abc" loses |
| Game.TwentyNinesDefuse | main.go:298-318 | a field starting with twenty nines, such as "99999999999999999999x", defuses |
| Game.DefuseSetsFlag | main.go:327-333 | a Defuse card writes "1" to the user's defuse field only, so it counts exactly 1 whatever it was; decks and counters stay |
| Game.ShuffleResets | main.go:336-340 | a Shuffle card replaces the user's deck, and no other, by the shuffle of the canonical deck, a 5-card permutation of it, and writes "0" to the user's defuse field only; the counters stay |
| Game.DefaultBranchChangesNothing | main.go:342-351 | a Cat, or an unlisted name, changes nothing |
| Game.StartKeepsDecksWithin | main.go:140-156 | starting keeps every deck within the canonical composition |
| Game.DrawKeepsDecksWithin | main.go:193-209 | drawing, whatever the card, keeps every deck within the canonical composition |
| Game.DecksAtMostFive | main.go:354-380 | in such a store every deck has between 0 and 5 cards |
| Game.Store.constructor | main.go:37 | the store starts empty |
| Game.Store.InitializeDeck | main.go:78-105 | the shuffled deck is appended to the user's list |
| Game.Store.StartGame | main.go:108-164 | reply and new store are those of `Start` |
| Game.Store.UpdateUserStats | main.go:212-280 | the new store is `StatsUpdated`: the chosen counter is bumped, or nothing changes when the read fails |
| Game.Store.ResetGame | main.go:354-380 | the old list is deleted and replaced by the shuffled deck, and the defuse field is set to 0 (`Reset`) |
| Game.Store.HandleDrawnCard | main.go:282-352 | effect and new store are those of `Handle` |
| Game.Store.DrawCard | main.go:166-210 | outcome and new store are those of `Draw` |
| GameV2.StartGameResumes | main2.go:110-124 | a non-empty deck is returned as it is, and the store does not change |
| GameV2.StartGameCreates | main2.go:74-95 | an empty or missing deck is replaced by a stored 5-card permutation of the canonical deck, which is returned; nothing else is written |
| GameV2.StartGameIdempotent | main2.go:99-145 | a second start right after a first resumes the same deck and changes nothing |
| GameV2.DrawFromEmptyDeck | main2.go:162-165 | drawing from an empty or missing deck is refused and changes nothing |
| GameV2.DrawRemovesFirstOccurrence | main2.go:167-180 | the card returned is `deck[i]`; unless it refills the deck, the deck loses exactly the first card of that name and gets one shorter; other users' decks are unchanged |
| GameV2.ExplodingKittenRefills | main2.go:197-202 | a kitten always loses, and the deck becomes exactly `Cat, Cat, Defuse, Shuffle, Exploding Kitten` in that order; defuse stays |
| GameV2.ShuffleRefillsInOrder | main2.go:211-215 | a Shuffle card makes the deck exactly the canonical deck, unshuffled; defuse stays |
| GameV2.DefuseSetsFlag | main2.go:204-209 | a Defuse card writes "1" to the user's defuse field only, which parses as 1; the decks stay |
| GameV2.DefaultBranchChangesNothing | main2.go:217-220 | a Cat, or an unlisted name, changes nothing |
| GameV2.DrawIgnoresDefuse | main2.go:183-222 | the defuse field never influences a draw: stores with equal decks draw to the same outcome and the same decks |
| GameV2.StartKeepsDecksWithin | main2.go:99-145 | starting keeps every deck within the canonical composition |
| GameV2.DrawKeepsDecksWithin | main2.go:147-181 | drawing keeps every deck within the canonical composition |
| GameV2.Initialized | main2.go:74-95 | (definition) deck creation: the shuffled canonical five appended to the user's list |
| GameV2.Start | main2.go:99-145 | (definition) start game: resume a non-empty deck, otherwise create one and return it |
| GameV2.Refilled | main2.go:224-234 | (definition) reset: the user's deck becomes the canonical five in fixed order |
| GameV2.Handle | main2.go:183-222 | (definition) the card switch: refill on a kitten or a Shuffle, set the field on Defuse, nothing otherwise |
| GameV2.Draw | main2.go:147-181 | (definition) draw: refused on an empty deck; otherwise card `i`, removal of its first occurrence, then `Handle` |
| GameV2.Store.constructor | main2.go:35 | the store starts empty |
| GameV2.Store.InitializeDeck | main2.go:74-95 | the shuffled deck is appended to the user's list |
| GameV2.Store.StartGame | main2.go:99-145 | reply and new store are those of `Start` |
| GameV2.Store.ResetGame | main2.go:224-234 | the old list is deleted and the canonical deck pushed back in its fixed order (`Refilled`) |
| GameV2.Store.HandleDrawnCard | main2.go:183-222 | effect and new store are those of `Handle` |
| GameV2.Store.DrawCard | main2.go:147-181 | outcome and new store are those of `Draw` |

## Left out

- The HTTP layer is left out: the router, CORS, request binding, status codes and JSON bodies. Each handler returns an outcome value instead.
- Logging and the emoji glyphs of the card table are left out.
- Store transport errors are left out, with two exceptions:
  - the failed counter read in `updateUserStats` is a `readFails` input, and it abandons the update;
  - the failed defuse read in `handleDrawnCard` is a `defuseReadFails` input, and it reads as 0.
- All other failures of the store (list reads, removals, pushes, hash writes, `HGetAll`) are assumed not to happen. This also rules out the start handler's error replies.
- The write to the `defuse:<user>` key after a loss (main.go:324) is left out. Nothing reads that key, and its arguments are malformed.
- The store deletes a list once its last element is removed. The model keeps an empty list instead. The two are indistinguishable through `DeckAt`, which reads a missing key as the empty list.
- Randomness is left out: seeding, `rand.Intn` and the generator behind `rand.Shuffle`. The caller supplies the shuffle's swap choices and the drawn index. No claim is made about probabilities.
- The iteration order of `HGetAll`'s result is an input: any duplicate-free enumeration of the `win` hash.
- The WebSocket hub is left out: the client set, the mutex, the ping goroutine, leaderboard broadcasting and the busy loop of the older server. So are concurrency and the race in the read-increment-write.
- The older server's leaderboard handler is a constant stub and is left out.

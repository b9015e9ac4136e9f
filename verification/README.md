# Super Trunfo (countries) — a verified model of the game logic

This project models the game logic of `jogo.py`, a two-sided Super Trunfo card
game played by a person against the computer. The model and its proofs are
written in Dafny.

Each side shows the front card of its hand and an attribute is chosen. The
higher value wins both cards. A *super trunfo* card beats every card except an
*anti-trunfo* card, to which it loses. When both cards are super trunfos, the
player's wins unless the computer's is also anti-trunfo, in which case the
computer's wins. A tied round puts both cards on a tie pile, and the winner
of the next decisive round collects that pile.

The project has five modules:

- `Optional` (`option.dfy`): Python's value-or-`None`.
- `Cards` (`cards.dfy`): class `Carta`. A card is a name, an ordered attribute
  dictionary and the two trump flags. The module also defines
  `obter_valor_atributo` (`Value`), where a missing attribute reads as 0.
- `Rounds` (`rounds.dfy`): `resolver_rodada` (`Resolve`) and
  `ia_escolhe_atributo` (`AiChoice`). Python's `max` returns the first entry
  that holds the largest value.
- `Dealing` (`dealing.dfy`): class `Baralho` (`Deck`).
  - `embaralhar` (`Shuffle`) reorders the deck in place.
  - `distribuir(n)` (`Deal`) shuffles, then deals card `i` to hand `i % n` with
    a loop (`DealRoundRobin`).
  - `Deal` and `DealRoundRobin` are specified by the function `HandOf`. The lemmas prove that the
    hands partition the deck and that hand sizes differ by at most one.
- `Play` (`game.dfy`): the global state and the main loop, as class `Game`.
  - Fields: the two hands, the tie pile, whose turn it is, `game_state`, the
    chosen attribute and the round winner.
  - `resetar_jogo` is `Reset`.
  - A mouse click is `Click`.
  - Each timed step of the loop is `TimerElapsed`. It covers the computer's
    move (`AiChooses`), the end of the result display, and settlement
    (`Settle`).
  - Settlement is `TakeCards`, specified by the value function `Settled`.

The class invariant is `Game.Valid`, which combines `DeckOk` with the
value-level predicate `Consistent`. It says:

- once a game has started, the hands and the tie pile together hold exactly
  the cards of the deck, as a multiset;
- the tie pile holds whole pairs;
- during a round both sides have a front card;
- the game is over only when a hand is empty;
- the phase agrees with whose turn it is;
- a result on screen is the resolution of the two front cards on the chosen
  attribute.

The constructor, `Reset`, `Click`, `TimerElapsed` and the steps `AiChooses`
and `Settle` all end in `Valid()`. `Click`, `TimerElapsed`, `AiChooses` and
`Settle` also require it, while `Reset` establishes it from any state whose
deck is playable. `TakeCards` is an internal step of `Settle` and neither
requires nor ensures the invariant; `Begin` is the last step of `Reset`.

### Inputs that become parameters

- `random.shuffle` becomes the `shuffled` argument, which may be any
  permutation of the deck.
- A click on the player's card arrives as the name of the attribute row under
  the pointer (`hit`). Hit testing against the drawn rectangles stays outside
  the model.
- Each wall-clock check arrives as a `TimerElapsed` event.

### Behaviour of `jogo.py` the model keeps

- The computer always picks the first attribute of its card that holds the
  largest value.
- The player always starts a new game.
- The deal alternates cards: card `i` of the shuffled deck goes to hand
  `i % 2`, the player's hand being hand 0.
- A click on an attribute while the player chooses resolves the round at once
  and shows the result.
- The size of the card file is never checked.

## Model

| member | source | states |
|---|---|---|
| Cards.Lookup | jogo.py:48 | `dict.get(key, 0)`: a missing key reads as 0, and any other result is the value of an entry with that key |
| Cards.Value | jogo.py:48 | `obter_valor_atributo`: 0 for an attribute the card lacks, and any non-zero result is stored under that name (the exact value of a present attribute is `ValueOfKey`) |
| Cards.LookupAt | jogo.py:48 | in a dictionary with distinct keys, reading an entry's key returns that entry's own value |
| Cards.ValueOfKey | jogo.py:48 | an attribute the card has reads as the value of the entry holding it |
| Rounds.Resolve | jogo.py:120-131 | a player super trump wins unless the computer's card is anti-trump, in which case it loses; the same holds for the computer's super trump against a card that is not a super trump; otherwise the player wins iff their value is greater, the computer wins iff its value is greater, and the round is tied iff the values are equal (missing attributes count 0) |
| Rounds.TrumpIgnoresAttribute | jogo.py:121-124 | with a super trump on the table, the chosen attribute does not affect the outcome |
| Rounds.ResolveSwap | jogo.py:120-131 | exchanging the two cards exchanges the winner and keeps a tie, unless both cards are super trumps with the same anti-trump flag |
| Rounds.BothSuperTrumps | jogo.py:121-123 | two super trumps with equal anti flags: the first-listed card (the player's) decides; the outcome does not depend on which card is which |
| Rounds.BestIndex | jogo.py:135 | `max(d, key=d.get)` scans in order: the index holds a largest value and every earlier entry is strictly smaller |
| Rounds.AiChoice | jogo.py:133-136 | the computer names one of its card's attributes whose value is at least every other attribute's, and no earlier attribute reaches that value |
| Dealing.HandOfLength | jogo.py:69-70 | hand `k` of an `n`-way deal has as many cards as there are positions `j*n+k` inside the deck |
| Dealing.HandOfAt | jogo.py:70 | the `j`-th card of hand `k` is the deck's card at position `j*n+k` |
| Dealing.HandSizes | jogo.py:69-70 | any two hands differ in size by at most one card, and an earlier hand is never the smaller |
| Dealing.TwoHandSizes | jogo.py:164 | dealt to two, the player gets `(N+1)/2` cards and the computer `N/2` |
| Dealing.DealPartition | jogo.py:67-71 | the hands together hold exactly the cards of the deck, each as many times as in the deck |
| Dealing.TwoHandsPartition | jogo.py:164 | the player's and the computer's hands together are a permutation of the deck |
| Dealing.DealRoundRobin | jogo.py:69-71 | the dealing loop returns `n` hands, hand `k` being exactly `HandOf(s, n, k)` |
| Dealing.Deck.constructor | jogo.py:56 | the deck holds the loaded cards in file order |
| Dealing.Deck.Shuffle | jogo.py:65 | the deck now holds the caller's permutation of its cards |
| Dealing.Deck.Deal | jogo.py:67-71 | shuffles the deck in place, then returns the round-robin hands of the new order, which partition the old deck |
| Play.SettledConserves | jogo.py:204-214 | settlement neither creates nor loses a card, so the total count is also kept |
| Play.KeepsCards | jogo.py:204-214 | a table holding the deck's cards in a tie pile of whole pairs still does after settlement |
| Play.SettledSizes | jogo.py:204-214 | the winner gains the played pair and the tie pile, the loser loses one card, and the pile empties; on a tie each side loses one card and the pile grows by two |
| Play.TiesThenWin | jogo.py:204-214 | two ties and then a player win: the player's hand ends with the last pair, then the tied pairs in order, and the pile is empty |
| Play.TurnAfter | jogo.py:206-211 | the winner of a decisive round moves next; a tie keeps the turn |
| Play.NextPhase | jogo.py:216-217 | after settlement the game is over iff a hand is empty; otherwise the player chooses iff it is their turn, and the computer thinks iff it is its turn |
| Play.DealStarts | jogo.py:161-168 | dealing a permutation of a playable deck of at least two cards starts a consistent game with the hand sizes above |
| Play.FrontPlayable | jogo.py:192 | while the table holds the deck, the computer's front card has attributes to choose from |
| Play.ResolveStep | jogo.py:183-185 | choosing an attribute during a round and resolving it keeps the game consistent |
| Play.SettleStep | jogo.py:204-217 | settling a consistent animation gives a consistent game in the phase `NextPhase` picks |
| Play.AnnouncedAsWritten | jogo.py:230 | the end screen names the player winner iff the player's hand is non-empty, never a draw |
| Play.LastTieAnnouncesAi | jogo.py:230 | a tied last round with one card each empties both hands, ends the game, and is announced as a computer win |
| Play.Announced | jogo.py:230 | corrected end result: the side with cards wins, and a draw is declared iff both hands are empty |
| Play.AnnouncedHoldsCards | jogo.py:229-232 | at the end the announced winner holds every card not on the tie pile; after a draw all cards are on the pile |
| Play.Game.FinalResult | jogo.py:229-232 | the corrected end-screen result of a finished game (see Findings): it agrees with the screen at jogo.py:230 whenever a hand still holds cards, and differs only when both are empty, where the source announces the computer; the player wins iff they hold cards, the computer iff it does, a draw iff both hands are empty; the winner holds every card off the tie pile |
| Play.Game.constructor | jogo.py:151-158 | the start screen: deck loaded, empty hands and pile, player's turn, nothing chosen, the invariant holds |
| Play.Game.CardCount | jogo.py:164-165 | in a started game the hands and the pile hold as many cards as the deck |
| Play.Game.Reset | jogo.py:161-168 | `resetar_jogo`: the deck is reshuffled and dealt, the pile is emptied, the player chooses, and the invariant holds |
| Play.Game.Begin | jogo.py:165-168 | the assignments ending `resetar_jogo` set exactly those fields and establish the invariant |
| Play.Game.Click | jogo.py:178-187 | on the start or end screen a click starts a new game; while the player chooses, a hit on an attribute resolves the round and shows it; any other click changes nothing |
| Play.Game.TakeCards | jogo.py:204-214 | the in-place pops, extends and clear produce exactly `Settled` of the old table, and the turn `TurnAfter` the winner |
| Play.Game.Settle | jogo.py:203-219 | settlement followed by the choice of the next phase keeps the invariant |
| Play.Game.AiChooses | jogo.py:190-194 | the computer chooses `AiChoice` of its front card, the round is resolved on it and shown, and the hands are unchanged |
| Play.Game.TimerElapsed | jogo.py:189-219 | a timed step: the computer's move, then the result gives way to the animation, then the animation ends in settlement with the chosen attribute and result kept; other phases are unchanged |

## Left out

- The SSL override, flag-image download and image loading (jogo.py:9-14, 31-45) are network and file I/O.
- Reading the card file and building cards while skipping failures (jogo.py:51-63) is file I/O. The deck is given as a sequence of cards.
- Drawing, fonts and the end-screen text (jogo.py:75-118, 222-274) are presentation. The only exception is the winner decision on the end screen, modelled under Findings.
- Hit testing of the clickable rectangles (jogo.py:100-107, 181-183) is not modelled. `Click` receives the attribute name under the pointer.
  - The source resolves on whatever name those rectangles map to. That name can belong to an earlier card, because the rectangles are redrawn only while the cards are shown at rest. A name the front card lacks then counts as 0, and the model keeps that behaviour.
- Wall-clock timing (`tempo_estado`, `anim_start_time`; the 1 s and 2 s thresholds at jogo.py:191 and 198, the 0.5 s `anim_duration` set at jogo.py:159 and checked at jogo.py:203, and the restart of `tempo_estado` at jogo.py:219) and the animation progress (jogo.py:240-254) are replaced by the `TimerElapsed` event.
  - In the source a state entered during one frame is checked again later in that same frame. Those checks cannot fire before their timers, so one event per step loses nothing.
- The randomness of `random.shuffle` (jogo.py:65) is not modelled. The permutation is a parameter.
- The pygame event loop and `QUIT` (jogo.py:139-148, 172-177, 273-277) are plumbing. Each event is one method call.
- Dealing.Deck.Deal requires `players > 0`. With no players, `distribuir` returns no hands for an empty deck and raises `ZeroDivisionError` otherwise. The game only deals to two.
- Play.Game.constructor requires at least two cards, each with a non-empty attribute dictionary. `jogo.py` does not check either.
  - With fewer than two cards the drawing code indexes an empty hand (jogo.py:236).
  - A card without attributes makes the computer's `max` raise (jogo.py:135).
- Play.Game.Reset needs only a playable deck, not the whole invariant, because `resetar_jogo` works from any state.

## Findings

| source | as written | input that shows it | evidently intended | confidence | as-written member | corrected member |
|---|---|---|---|---|---|---|
| jogo.py:230 | the end screen announces the player as winner iff the player's hand is non-empty, and the computer otherwise | the last round is a tie with one card in each hand; settlement empties both hands and puts both cards on the tie pile, the game ends, and "A IA GANHOU O JOGO!" is shown although neither side has cards | a drawn game when both hands run out together | medium; not executed | Play.LastTieAnnouncesAi | Play.Announced |

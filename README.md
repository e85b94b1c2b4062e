# Meta Clash lobby and round engine, in Dafny

Meta Clash is a multiplayer card game ("top trumps" style) served over a
socket connection. The game logic sits in `pages/api/socket.js`. It keeps a
registry of lobbies by id, and each lobby holds:

- its seats (humans and bots)
- a deck of cards, where each card has integer stats per attribute
- a state: waiting, playing or finished
- the index of the seat whose turn it is
- a round counter and a history of resolved rounds
- the undealt kitty and the declared winner

The handlers are `createLobby`, `joinLobby` (which recovers a seat by
display name), `addBot`, `startGame` (pad with bots, shuffle, deal
round-robin), `chooseAttribute`, the bot's turn (`runBotTurn`) and
`leaveLobby`. They change a lobby record in place.

This project models those handlers and proves what they promise:

- **Rounds.** Every seat shows and loses its front card. Only the round
  winner gains a win. The round winner is the first seat holding the
  highest value. The round counter advances and exactly one history entry
  is added. The game finishes exactly when no hand holds a card.
- **Game winner.** The winner is the first seat with the most wins, when
  any seat won anything.
- **Bots.** A bot calls the first attribute with the highest stat on its
  front card.
- **Handlers.** Errors are returned in the order the code checks for them,
  and an error changes nothing. Recovering a seat changes only its
  connection.
- **Deal.** Cards are conserved. Seat j's k-th card is the card at position
  k·n + j of the shuffled deck, where n is the number of seats. Hand sizes
  never increase from one seat to the next and differ by at most one.

Modules:

- `Model` (`model.dfy`): the records (cards, seats, history entries,
  errors) and the count and multiset of the cards held in hands.
- `Round` (`round.dfy`): a round worked out on values. This covers the
  reveal, the round winner's scan, the bot's attribute scan and the
  final-winner reduce.
- `Deal` (`deal.dfy`): the Fisher–Yates shuffle on an array, the
  round-robin deal loop and its specification `DealtHand`.
- `Roster` (`roster.dfy`): finding a seat by name, and removing the seats
  bound to a connection.
- `Socket` (`socket.dfy`):
  - the class `Lobby`, whose fields the handlers update in place;
  - `Lobby.Resolve` for the round resolution that `chooseAttribute` and
    `runBotTurn` share, and `Lobby.Start` for the start of a game;
  - the class `Registry`, with one method per handler.

The code's randomness is taken as parameters:

- the lobby id, seat ids and bot name suffixes;
- the shuffle's draws `rand(i)`, where the swap index is
  `rand(i) % (i + 1)`.

A scheduled bot turn (`setTimeout`) becomes a returned flag `scheduleBot`.

## Model

| member | source | states |
|---|---|---|
| Model.CardsRemaining | pages/api/socket.js:119-120 | the card count is 0 exactly when every hand is empty |
| Model.DealOne | pages/api/socket.js:99 | moving the deck's front card into a seat keeps the cards held plus the cards left in the deck |
| Round.RevealAll | pages/api/socket.js:109-110 | seat i's reveal is its front card, or none for an empty hand, and seat i loses exactly that card while nothing else about it changes |
| Round.ScanRoundWinner | pages/api/socket.js:112-113 | the chosen seat revealed a card, no reveal beats it on the attribute (a missing stat reads as 0), and every earlier seat's reveal is strictly lower, so the first maximal seat wins |
| Round.RoundWinnerUnique | pages/api/socket.js:112-113 | at most one seat meets the round-winner condition |
| Round.TieGoesToFirstSeat | pages/api/socket.js:113 | with values [10, 20, 20, 5] seat 1 wins the round and seat 2 does not |
| Round.PlayRound | pages/api/socket.js:109-115 | the new seats, the reveals and the winner form a round: the reveals are the front cards, the winner is the round winner, and the new seats are the popped seats with the winner credited |
| Round.RoundOfPointwise | pages/api/socket.js:109-115 | seat by seat, a round shows the front card, removes it from the hand and adds one win to the round winner's total and to no other seat's |
| Round.PopConserves | pages/api/socket.js:110 | the cards held before the reveal are the cards still held plus the cards revealed |
| Round.RoundConserves | pages/api/socket.js:109-115 | a round creates and loses no card: the cards held before are those held after plus those revealed |
| Round.PickAttribute | pages/api/socket.js:13-14 | the bot calls the first attribute whose stat on its front card is maximal; if the first attribute is missing from the card, it stays the call, because a comparison with an undefined stat is false |
| Round.BotChoiceUnique | pages/api/socket.js:13-14 | the bot's call is determined by its front card and the attribute list |
| Round.FinalWinnerSpec | pages/api/socket.js:122 | the reduce declares no winner exactly when every seat has 0 wins; otherwise it declares the first seat with the most wins |
| Round.FirstMaximalSeatWinsGame | pages/api/socket.js:122 | with final wins [3, 5, 5, 2] seat 1 is declared the winner |
| Deal.Shuffle | pages/api/socket.js:97 | the shuffled copy has the deck's length and is a permutation of it (same multiset) |
| Deal.DealtHandAt | pages/api/socket.js:99 | the k-th card of seat j is the card at position k·n + j of the shuffled deck |
| Deal.HandSizesBalanced | pages/api/socket.js:99 | an earlier seat holds at least as many cards as a later one, and at most one more |
| Deal.HandSizesGap | pages/api/socket.js:99 | two seats' hand sizes differ only once the later seat has run past the end of the deck |
| Deal.DealPass | pages/api/socket.js:99 | one pass gives seat j the j-th remaining card, if there is one; the rest loses the dealt prefix, and hands plus rest keep the same cards |
| Deal.DealRounds | pages/api/socket.js:99-100 | after the passes, seat j holds DealtHand(j) and nothing else about it changes; the kitty is the suffix after perSeat·n cards, and hands plus kitty are the shuffled deck as a multiset |
| Deal.ClearHands | pages/api/socket.js:98 | every hand is emptied and nothing else about a seat changes |
| Deal.DealGame | pages/api/socket.js:97-100 | the seats and kitty are a deal of the deck (a permutation dealt round-robin, with the undealt suffix as the kitty), and every card of the deck is in exactly one hand or in the kitty |
| Roster.FindByName | pages/api/socket.js:67 | returns the first seat with that display name, and none exactly when no seat has it |
| Roster.WithoutSocket | pages/api/socket.js:138 | keeps exactly the seats not bound to the connection, and keeps every seat when none is bound to it |
| Roster.WithoutSocketAppend | pages/api/socket.js:138 | the filter works segment by segment, so kept seats keep their relative order |
| Roster.UnboundSeatsStay | pages/api/socket.js:138 | a seat bound to no connection is never removed by leaving |
| Roster.RecoveredSeatLeaves | pages/api/socket.js:67-70 | recovery by name matches any seat, bots included: the seat found for the name keeps its name and bot flag, is rebound to the joiner's connection, and is then removed when that connection leaves a waiting lobby |
| Socket.PadWithBots | pages/api/socket.js:96 | the roster grows to maxPlayers seats; existing seats are unchanged and the k-th added seat is a new bot built from the k-th id and suffix |
| Socket.SetUpGame | pages/api/socket.js:96-100 | the padded seats keep everything but their hands, the hands and kitty are a deal of the deck, and every card of the deck is in exactly one hand or in the kitty |
| Socket.Lobby.constructor | pages/api/socket.js:55-56 | a new lobby is waiting, at round 0 and seat 0, with an empty history and the host as its only seat |
| Socket.Lobby.Resolve | pages/api/socket.js:109-123 | a round on the attribute: the seats are updated as in a round, the winner becomes the current seat, the round goes up by 1, one history entry carries the old round number, and the game finishes with the reduce's winner exactly when no hand holds a card |
| Socket.Lobby.Start | pages/api/socket.js:96-100 | the roster is padded with bots, every seat keeps its id, name, connection and wins but holds a fresh deal, the rest of the deck is the kitty, every card of the deck is in exactly one hand or in the kitty, and the game is playing at round 1 with seat 0 to move |
| Socket.Registry.CreateLobby | pages/api/socket.js:49-57 | a new waiting lobby with the host seat (named "Host" when no name is given) is stored under the id, and no other lobby changes |
| Socket.Registry.JoinLobby | pages/api/socket.js:62-83 | a missing lobby is refused; a known name rebinds only that seat's connection, in any state; a new name is refused when the lobby is full, then when it is not waiting, and otherwise is seated last (named "Player" when empty); a refusal changes nothing |
| Socket.Registry.AddBot | pages/api/socket.js:86-91 | a missing lobby or a full one is refused and nothing changes; otherwise a bot is seated last, whatever the lobby's state |
| Socket.Registry.StartGame | pages/api/socket.js:94-102 | a missing lobby is refused, then a lobby with fewer than two seats, and neither refusal changes anything; otherwise the game starts (there is no state check, so a game under way is restarted), and a bot turn is scheduled exactly when seat 0 is a bot |
| Socket.Registry.ChooseAttribute | pages/api/socket.js:105-129 | "no active game" exactly when the lobby is missing or not playing; "not your turn" exactly when the current seat is neither the caller nor a bot; no other error is returned and an error changes nothing; otherwise the reply is ok and one round is resolved, and a bot turn is scheduled exactly when the game is still playing and the new current seat is a bot |
| Socket.Registry.RunBotTurn | pages/api/socket.js:8-38 | the bot acts exactly when the lobby is playing and the current seat is a bot holding a card, and otherwise nothing changes; when it acts, it resolves a round on its best attribute, and the next bot turn is scheduled as for a human choice |
| Socket.Registry.LeaveLobby | pages/api/socket.js:132-147 | a missing lobby is refused; while waiting, the seats bound to the connection are removed, and a waiting lobby left empty is deleted from the registry; once the game has started, the roster is kept so that seats can be recovered; nothing else changes |

## Left out

- Socket I/O is not modelled:
  - room joins, `emit` broadcasts and acknowledgement payloads;
  - `db.write()` persistence and the `getDb()` lookup, because the registry
    is held in memory as `Registry.lobbies`.
- Concurrency between handlers is not modelled, because each handler is
  modelled as one atomic step. Where one `await` interleaves with another,
  the code may behave in ways this model does not capture.
- Timers are not modelled. `setTimeout(runBotTurn, …)` becomes the returned
  flag `scheduleBot`, and the delays (400, 500 and 600 ms) are dropped.
- Card generation is not modelled: `generateCards`, the theme's API cache
  and the 'One Piece' fallback theme. `CreateLobby` takes the generated
  cards as a parameter.
- Randomness is not modelled: `Math.random()` ids, bot name suffixes and
  shuffle draws are parameters. The shuffle's draw
  `Math.floor(Math.random() * (i + 1))` is modelled as `rand(i) % (i + 1)`,
  which covers the same range of indices.
- The per-seat `wins: {}` object is never read or written after it is
  created, so it is not modelled.
- The unused `reveals` array (lines 17 and 109) is not modelled, because it
  equals the popped `topCards`.
- A lobby's `kitty` and `winner` are undefined until they are first
  assigned. The model starts them as `[]` and `None`.
- The declared `winner` is modelled as the winner's seat index rather than
  an alias of the player object. Seats do not move once a game has started,
  so the index names the same seat.
- Hands are modelled as always present. The code guards for `p.hand` being
  undefined, but every seat is created with a hand.
- The handlers update seats by replacing whole sequences, not by changing
  shared player objects in place. Apart from `winner`, which is handled
  above, no other code holds a player object, so the aliasing does not
  matter.
- Socket.Lobby.Resolve: requires at least one card in hand. The code reads
  seat -1 and throws when no seat's value beats -Infinity. With the card's
  own stats, that happens only when nobody revealed a card, which needs a
  game started with an empty deck. It also happens for an inherited
  attribute name (next line).
- Model.StatOrZero: a card's stats are modelled as its own attributes
  only. `chooseAttribute` looks `c.stats[attr]` up on a plain JavaScript
  object (socket.js:113). For an attribute name the object inherits
  ("toString", "constructor", "__proto__"), the value is a function or an
  object, every `v > best` comparison is false, and line 115 throws after
  line 110 has already popped every hand. The lobby stays playing, so, if
  the server survives the rejected handler, repeating the call empties the
  hands without a round being scored. Any
  client can send such a name when a bot is to move (line 107). The model
  reads such a stat as 0 and resolves a normal round instead.
- Socket.Registry.JoinLobby: lobby ids are modelled as the registry's own
  keys. `db.data.lobbies` is a plain JavaScript object, so an id it
  inherits ("toString", "constructor", "valueOf", "__proto__") finds a
  function or `Object.prototype`, which passes the `!l` check. The handler
  then throws at `l.players` (socket.js:67) and sends no reply, where the
  model refuses with "no lobby". Only a client that bypasses the page's
  upper-casing of the typed id can send such an id.
- Socket.Registry.AddBot: the same inherited lobby id throws at
  socket.js:89 with no reply, where the model refuses with "no lobby".
- Socket.Registry.StartGame: the same inherited lobby id throws at
  socket.js:95 with no reply, where the model refuses with "no lobby".
- Socket.Registry.LeaveLobby: the same inherited lobby id throws at
  socket.js:142 with no reply, where the model returns `ok == false`.
  `chooseAttribute` answers "no active game" for such an id, as the model
  does.
- Socket.Registry.ChooseAttribute: requires at least one card in hand only
  on the path that resolves a round (the lobby is playing and the current
  seat is the caller or a bot), for the reason given for `Resolve`. The
  "no active game" and "not your turn" replies are modelled for every
  state, including a game dealt from an empty deck.
  `Socket.Registry.RunBotTurn` needs no such requirement, because the bot's
  own front card is in play.
- Socket.Lobby.Start: the resulting state is stated up to the shuffle's
  random draws. There exists a permutation of the deck that the seats and
  kitty are a deal of. The draw-by-draw order is not part of the
  postcondition.
- Cards are not conserved during play. The hands plus the kitty do not
  equal the deck once a round has been played, because the revealed cards
  are kept only in the history entry. The model proves conservation for the
  deal (`Deal.DealGame`, `Socket.Lobby.Start`) and for each round (`Round.RoundConserves`:
  cards held before = cards held after + cards revealed).
- `lib/game.js`, which defines the cards and the game constants, is not
  part of this model. `ATTRS`, `CARDS_PER_PLAYER` and `MAX_PLAYERS` are fields of
  `Registry`, given when it is created.

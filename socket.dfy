/**
 * The lobby registry and its handlers: create, join (with session recovery),
 * add a bot, start (pad, shuffle, deal), choose an attribute, the bot's turn,
 * and leave. Every handler mutates one lobby record in place.
 */
module Socket {
  import opened Model
  import opened Round
  import opened Deal
  import opened Roster

  /** A new human seat; an empty display name falls back to `fallback`. */
  function NewHuman(id: string, name: string, fallback: string, socketId: string): Player {
    Player(id, if name == "" then fallback else name, Some(socketId), false, [], 0)
  }

  /** A new bot seat: named "BOT-" plus a random suffix, bound to no connection. */
  function NewBot(id: string, suffix: string): Player {
    Player(id, "BOT-" + suffix, None, true, [], 0)
  }

  function Max(a: int, b: int): int {
    if a >= b then a else b
  }

  /** Seat `i` of `ps` padded with bots: the existing seat, or else the (i - |ps|)-th new bot. */
  function Padded(ps: seq<Player>, botId: nat -> string, botSuffix: nat -> string, i: nat): Player {
    if i < |ps| then ps[i] else NewBot(botId(i - |ps|), botSuffix(i - |ps|))
  }

  /** The padding loop: bots are appended until the roster holds `maxPlayers` seats. */
  method PadWithBots(ps: seq<Player>, maxPlayers: nat, botId: nat -> string, botSuffix: nat -> string)
    returns (qs: seq<Player>)
    ensures |qs| == Max(|ps|, maxPlayers)
    ensures forall i :: 0 <= i < |qs| ==> qs[i] == Padded(ps, botId, botSuffix, i)
  {
    qs := ps;
    while |qs| < maxPlayers
      invariant |ps| <= |qs| <= Max(|ps|, maxPlayers)
      invariant forall i :: 0 <= i < |qs| ==> qs[i] == Padded(ps, botId, botSuffix, i)
      decreases maxPlayers - |qs|
    {
      var k := |qs| - |ps|;
      qs := qs + [NewBot(botId(k), botSuffix(k))];
    }
  }

  /**
   * The roster and deck of a starting game: the seats padded with bots, each
   * holding its deal, and the rest of the deck as the kitty.
   */
  method SetUpGame(ps: seq<Player>, maxPlayers: nat, deck: seq<Card>, botId: nat -> string, botSuffix: nat -> string,
                   rand: nat -> nat, perSeat: nat)
    returns (shuffled: seq<Card>, dealt: seq<Player>, kitty: seq<Card>)
    requires 0 < |ps|
    ensures |dealt| == Max(|ps|, maxPlayers)
    ensures forall i :: 0 <= i < |dealt| ==> dealt[i] == Padded(ps, botId, botSuffix, i).(hand := dealt[i].hand)
    ensures IsDealOf(deck, shuffled, dealt, kitty, perSeat)
    ensures CardsHeld(dealt) + multiset(kitty) == multiset(deck)
  {
    var seats := PadWithBots(ps, maxPlayers, botId, botSuffix);
    shuffled, dealt, kitty := DealGame(seats, deck, rand, perSeat);
  }

  /** One game session. `winner` is the seat index of the declared winner. */
  class Lobby {
    const id: string
    const theme: string
    const deck: seq<Card>
    const maxPlayers: nat
    var players: seq<Player>
    var state: LobbyState
    var currentPlayerIndex: int
    var round: int
    var history: seq<HistoryEntry>
    var kitty: seq<Card>
    var winner: Option<nat>

    ghost predicate Valid()
      reads this
    {
      && 0 < maxPlayers
      && |players| <= maxPlayers
      && (state != Waiting ==> 0 <= currentPlayerIndex < |players|)
      && (winner.Some? ==> state != Waiting && winner.value < |players|)
    }

    constructor (id: string, theme: string, deck: seq<Card>, maxPlayers: nat, host: Player)
      requires 0 < maxPlayers
      ensures Valid()
      ensures this.id == id && this.theme == theme && this.deck == deck && this.maxPlayers == maxPlayers
      ensures players == [host] && state == Waiting && currentPlayerIndex == 0 && round == 0
      ensures history == [] && kitty == [] && winner == None
    {
      this.id := id;
      this.theme := theme;
      this.deck := deck;
      this.maxPlayers := maxPlayers;
      players := [host];
      state := Waiting;
      currentPlayerIndex := 0;
      round := 0;
      history := [];
      kitty := [];
      winner := None;
    }

    /** Everything but the roster is as it was. */
    twostate predicate OnlyRosterChanged()
      reads this
    {
      && state == old(state)
      && currentPlayerIndex == old(currentPlayerIndex)
      && round == old(round)
      && history == old(history)
      && kitty == old(kitty)
      && winner == old(winner)
    }

    /**
     * One round was resolved on `attr`: every seat revealed (`tops`) and lost its
     * front card, the round winner (now the current player) gained exactly one
     * win, the round advanced and was logged under its old number, and the game
     * finished exactly when no card is left in any hand.
     */
    twostate predicate RoundResolved(attr: string, new tops: seq<Option<Card>>)
      reads this
    {
      var w := currentPlayerIndex;
      && IsRoundOf(old(players), attr, tops, w, players)
      && round == old(round) + 1
      && history == old(history) + [HistoryEntry(old(round), attr, tops, players[w].id)]
      && (if CardsRemaining(players) == 0
          then state == Finished && winner == FinalWinner(players)
          else state == old(state) && winner == old(winner))
      && kitty == old(kitty)
    }

    /**
     * The round resolution shared by a human's choice and a bot's turn.
     * `socket.js` indexes seat -1 when no hand holds a card, so a card in play is required.
     */
    method Resolve(attr: string) returns (tops: seq<Option<Card>>)
      requires Valid() && state == Playing && CardsRemaining(players) > 0
      modifies this
      ensures Valid() && RoundResolved(attr, tops)
    {
      var after, w;
      after, tops, w := PlayRound(players, attr);
      var entry := HistoryEntry(round, attr, tops, after[w].id);
      players, currentPlayerIndex, round, history := after, w, round + 1, history + [entry];
      if CardsRemaining(after) == 0 {
        state, winner := Finished, FinalWinner(after);
      }
    }

    /**
     * The game was started: the roster was padded with bots to `maxPlayers`
     * (the k-th added bot from `botId(k)`, `botSuffix(k)`), every seat keeps
     * its id, name, connection and wins but holds a fresh deal of the deck,
     * the rest of the deck is the kitty (so every card of the deck is in
     * exactly one hand or in the kitty), and the first seat leads round 1.
     */
    twostate predicate Started(botId: nat -> string, botSuffix: nat -> string, perSeat: nat)
      reads this
    {
      && |players| == Max(|old(players)|, maxPlayers)
      && (forall i :: 0 <= i < |players| ==>
            players[i] == Padded(old(players), botId, botSuffix, i).(hand := players[i].hand))
      && (exists shuffled :: IsDealOf(deck, shuffled, players, kitty, perSeat))
      && CardsHeld(players) + multiset(kitty) == multiset(deck)
      && state == Playing && round == 1 && currentPlayerIndex == 0
      && history == old(history) && winner == old(winner)
    }

    /** Start (or restart) the game; the handler checks for two seats first. */
    method Start(botId: nat -> string, botSuffix: nat -> string, rand: nat -> nat, perSeat: nat)
      requires Valid() && |players| >= 2
      modifies this
      ensures Valid() && Started(botId, botSuffix, perSeat)
    {
      var shuffled, dealt, rest := SetUpGame(players, maxPlayers, deck, botId, botSuffix, rand, perSeat);
      players, kitty := dealt, rest;
      state, round, currentPlayerIndex := Playing, 1, 0;
      assert IsDealOf(deck, shuffled, players, kitty, perSeat);
    }
  }

  /** All lobbies by id, and the game constants ATTRS, CARDS_PER_PLAYER and MAX_PLAYERS. */
  class Registry {
    var lobbies: map<string, Lobby>
    const attrs: seq<string>
    const cardsPerPlayer: nat
    const maxPlayers: nat

    ghost predicate Valid()
      reads this, lobbies.Values
    {
      && |attrs| > 0 && cardsPerPlayer > 0 && maxPlayers > 0
      && forall id :: id in lobbies ==> lobbies[id].id == id && lobbies[id].Valid()
    }

    constructor (attrs: seq<string>, cardsPerPlayer: nat, maxPlayers: nat)
      requires |attrs| > 0 && cardsPerPlayer > 0 && maxPlayers > 0
      ensures Valid() && lobbies == map[]
      ensures this.attrs == attrs && this.cardsPerPlayer == cardsPerPlayer && this.maxPlayers == maxPlayers
    {
      this.attrs := attrs;
      this.cardsPerPlayer := cardsPerPlayer;
      this.maxPlayers := maxPlayers;
      lobbies := map[];
    }

    /** createLobby: seat the host in a new waiting lobby stored under `id` (an existing one is replaced). */
    method CreateLobby(id: string, name: string, theme: string, cards: seq<Card>, socketId: string, hostId: string)
      returns (l: Lobby)
      requires Valid()
      modifies this
      ensures Valid() && fresh(l) && lobbies == old(lobbies)[id := l]
      ensures l.id == id && l.theme == theme && l.deck == cards && l.maxPlayers == maxPlayers
      ensures l.players == [NewHuman(hostId, name, "Host", socketId)]
      ensures l.state == Waiting && l.currentPlayerIndex == 0 && l.round == 0
      ensures l.history == [] && l.kitty == [] && l.winner == None
    {
      l := new Lobby(id, theme, cards, maxPlayers, NewHuman(hostId, name, "Host", socketId));
      lobbies := lobbies[id := l];
    }

    /**
     * joinLobby: a known display name rebinds that seat to the new connection
     * in any state; a new name is refused when the lobby is full, then when the
     * game is under way, and is otherwise seated at the end.
     */
    method JoinLobby(lobbyId: string, name: string, socketId: string, newId: string) returns (r: Outcome)
      requires Valid()
      modifies if lobbyId in lobbies then {lobbies[lobbyId]} else {}
      ensures Valid() && lobbies == old(lobbies)
      ensures lobbyId !in lobbies ==> r == Fail(NoLobby)
      ensures lobbyId in lobbies ==> lobbies[lobbyId].OnlyRosterChanged()
      ensures lobbyId in lobbies ==>
                var l := lobbies[lobbyId];
                var before := old(l.players);
                match FindByName(before, name)
                case Some(i) =>
                  r == Ok && l.players == before[i := before[i].(socketId := Some(socketId))]
                case None =>
                  if |before| >= l.maxPlayers then r == Fail(Full) && l.players == before
                  else if l.state != Waiting then r == Fail(GameInProgress) && l.players == before
                  else r == Ok && l.players == before + [NewHuman(newId, name, "Player", socketId)]
    {
      if lobbyId !in lobbies {
        return Fail(NoLobby);
      }
      var l := lobbies[lobbyId];
      var existing := FindByName(l.players, name);
      if existing.Some? {
        var i := existing.value;
        l.players := l.players[i := l.players[i].(socketId := Some(socketId))];
        return Ok;
      }
      if |l.players| >= l.maxPlayers {
        return Fail(Full);
      }
      if l.state != Waiting {
        return Fail(GameInProgress);
      }
      l.players := l.players + [NewHuman(newId, name, "Player", socketId)];
      r := Ok;
    }

    /** addBot: refused only when the lobby is missing or full, in any state. */
    method AddBot(lobbyId: string, botId: string, botSuffix: string) returns (r: Outcome)
      requires Valid()
      modifies if lobbyId in lobbies then {lobbies[lobbyId]} else {}
      ensures Valid() && lobbies == old(lobbies)
      ensures lobbyId !in lobbies ==> r == Fail(NoLobby)
      ensures lobbyId in lobbies ==> lobbies[lobbyId].OnlyRosterChanged()
      ensures lobbyId in lobbies ==>
                var l := lobbies[lobbyId];
                var before := old(l.players);
                if |before| >= l.maxPlayers then r == Fail(Full) && l.players == before
                else r == Ok && l.players == before + [NewBot(botId, botSuffix)]
    {
      if lobbyId !in lobbies {
        return Fail(NoLobby);
      }
      var l := lobbies[lobbyId];
      if |l.players| >= l.maxPlayers {
        return Fail(Full);
      }
      l.players := l.players + [NewBot(botId, botSuffix)];
      r := Ok;
    }

    /**
     * startGame: needs two seats; there is no state check, so it also restarts
     * a game under way or finished. `scheduleBot` is whether a bot turn is
     * scheduled because the first seat is a bot.
     */
    method StartGame(lobbyId: string, botId: nat -> string, botSuffix: nat -> string, rand: nat -> nat)
      returns (r: Outcome, scheduleBot: bool)
      requires Valid()
      modifies if lobbyId in lobbies then {lobbies[lobbyId]} else {}
      ensures Valid() && lobbies == old(lobbies)
      ensures lobbyId !in lobbies ==> r == Fail(NoLobby) && !scheduleBot
      ensures lobbyId in lobbies && |old(lobbies[lobbyId].players)| < 2 ==>
                r == Fail(NeedPlayers) && !scheduleBot && unchanged(lobbies[lobbyId])
      ensures lobbyId in lobbies && |old(lobbies[lobbyId].players)| >= 2 ==>
                var l := lobbies[lobbyId];
                r == Ok && l.Started(botId, botSuffix, cardsPerPlayer) && scheduleBot == l.players[0].isBot
    {
      if lobbyId !in lobbies {
        return Fail(NoLobby), false;
      }
      var l := lobbies[lobbyId];
      if |l.players| < 2 {
        return Fail(NeedPlayers), false;
      }
      l.Start(botId, botSuffix, rand, cardsPerPlayer);
      r := Ok;
      scheduleBot := l.players[l.currentPlayerIndex].isBot;
    }

    /**
     * chooseAttribute: refused unless the lobby is playing, then unless the
     * caller is the current seat or the current seat is a bot; otherwise the
     * round is resolved on `attr`. `scheduleBot` is whether the next turn is a
     * bot's in a game still playing.
     */
    method ChooseAttribute(lobbyId: string, playerId: string, attr: string)
      returns (r: Outcome, tops: seq<Option<Card>>, scheduleBot: bool)
      requires Valid()
      requires lobbyId in lobbies && lobbies[lobbyId].state == Playing ==>
                 var l := lobbies[lobbyId];
                 var active := l.players[l.currentPlayerIndex];
                 active.id == playerId || active.isBot ==> CardsRemaining(l.players) > 0
      modifies if lobbyId in lobbies then {lobbies[lobbyId]} else {}
      ensures Valid() && lobbies == old(lobbies)
      ensures r == Fail(NoActiveGame) <==> lobbyId !in lobbies || old(lobbies[lobbyId].state) != Playing
      ensures r == Fail(NotYourTurn) <==>
                && lobbyId in lobbies && old(lobbies[lobbyId].state) == Playing
                && var active := old(lobbies[lobbyId].players[lobbies[lobbyId].currentPlayerIndex]);
                   active.id != playerId && !active.isBot
      ensures r.Ok? || r == Fail(NoActiveGame) || r == Fail(NotYourTurn)
      ensures r.Fail? ==> !scheduleBot && (lobbyId in lobbies ==> unchanged(lobbies[lobbyId]))
      ensures r.Ok? ==>
                var l := lobbies[lobbyId];
                && l.RoundResolved(attr, tops)
                && scheduleBot == (l.state == Playing && l.players[l.currentPlayerIndex].isBot)
    {
      if lobbyId !in lobbies || lobbies[lobbyId].state != Playing {
        return Fail(NoActiveGame), [], false;
      }
      var l := lobbies[lobbyId];
      var active := l.players[l.currentPlayerIndex];
      if active.id != playerId && !active.isBot {
        return Fail(NotYourTurn), [], false;
      }
      tops := l.Resolve(attr);
      r := Ok;
      scheduleBot := l.players[l.currentPlayerIndex].isBot && l.state == Playing;
    }

    /**
     * The bot's turn: acts only when the lobby is playing, the current seat is
     * a bot and that bot holds a card; it calls the best attribute on its own
     * front card (`attrs[choice]`) and resolves the round with it.
     */
    method RunBotTurn(lobbyId: string) returns (acted: bool, choice: int, tops: seq<Option<Card>>, scheduleBot: bool)
      requires Valid()
      modifies if lobbyId in lobbies then {lobbies[lobbyId]} else {}
      ensures Valid() && lobbies == old(lobbies)
      ensures acted <==>
                && lobbyId in lobbies && old(lobbies[lobbyId].state) == Playing
                && var cur := old(lobbies[lobbyId].players[lobbies[lobbyId].currentPlayerIndex]);
                   cur.isBot && cur.hand != []
      ensures !acted ==> !scheduleBot && (lobbyId in lobbies ==> unchanged(lobbies[lobbyId]))
      ensures acted ==>
                var l := lobbies[lobbyId];
                var top := old(l.players[l.currentPlayerIndex].hand[0]);
                && IsBotChoice(top, attrs, choice)
                && l.RoundResolved(attrs[choice], tops)
                && scheduleBot == (l.state == Playing && l.players[l.currentPlayerIndex].isBot)
    {
      if lobbyId !in lobbies || lobbies[lobbyId].state != Playing {
        return false, -1, [], false;
      }
      var l := lobbies[lobbyId];
      var cur := l.players[l.currentPlayerIndex];
      if !cur.isBot || cur.hand == [] {
        return false, -1, [], false;
      }
      choice := PickAttribute(cur.hand[0], attrs);
      assert CardsRemaining(l.players) > 0;
      tops := l.Resolve(attrs[choice]);
      acted := true;
      scheduleBot := l.players[l.currentPlayerIndex].isBot && l.state == Playing;
    }

    /**
     * leaveLobby: while waiting, every seat bound to this connection is removed;
     * otherwise the roster is kept so the seat can be recovered. A waiting lobby
     * left empty is deleted. `ok` is false only for a missing lobby.
     */
    method LeaveLobby(lobbyId: string, socketId: string) returns (ok: bool)
      requires Valid()
      modifies this, if lobbyId in lobbies then {lobbies[lobbyId]} else {}
      ensures Valid()
      ensures ok <==> lobbyId in old(lobbies)
      ensures !ok ==> lobbies == old(lobbies)
      ensures ok ==>
                var l := old(lobbies)[lobbyId];
                && l.OnlyRosterChanged()
                && l.players == (if l.state == Waiting then WithoutSocket(old(l.players), socketId) else old(l.players))
                && lobbies == (if l.state == Waiting && l.players == [] then old(lobbies) - {lobbyId} else old(lobbies))
    {
      if lobbyId !in lobbies {
        return false;
      }
      var l := lobbies[lobbyId];
      if l.state == Waiting {
        l.players := WithoutSocket(l.players, socketId);
      }
      if |l.players| == 0 && l.state == Waiting {
        lobbies := lobbies - {lobbyId};
      }
      ok := true;
    }
  }
}

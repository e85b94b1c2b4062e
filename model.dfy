/**
 * The records the lobby server keeps: cards, players, round history,
 * and the accounting of cards held in hands.
 */
module Model {

  datatype Option<T> = None | Some(value: T)

  /** A card: a name, an image reference and a map from attribute name to stat. */
  datatype Card = Card(name: string, image: string, stats: map<string, int>)

  /** The stat the round engine compares: an attribute missing from the card reads as 0. */
  function StatOrZero(c: Card, attr: string): int {
    if attr in c.stats then c.stats[attr] else 0
  }

  /**
   * A seat in a lobby. `socketId` is the connection currently bound to the
   * seat (None for bots); `hand` is front-first, the front card is revealed next.
   */
  datatype Player = Player(
    id: string,
    name: string,
    socketId: Option<string>,
    isBot: bool,
    hand: seq<Card>,
    totalWins: nat)

  /** One resolved round: the round number, the attribute, every seat's reveal and the winner's id. */
  datatype HistoryEntry = HistoryEntry(round: int, attr: string, topCards: seq<Option<Card>>, winnerId: string)

  datatype LobbyState = Waiting | Playing | Finished

  /** The error strings the handlers acknowledge with. */
  datatype Error =
    | NoLobby        // 'no lobby'
    | Full           // 'full'
    | GameInProgress // 'game in progress'
    | NeedPlayers    // 'need players'
    | NoActiveGame   // 'no active game'
    | NotYourTurn    // 'not your turn'

  datatype Outcome = Ok | Fail(error: Error)

  /** The number of cards still in hands (the end-of-game reduce). */
  function CardsRemaining(ps: seq<Player>): (n: nat)
    ensures n == 0 <==> forall i :: 0 <= i < |ps| ==> ps[i].hand == []
  {
    if ps == [] then 0 else |ps[0].hand| + CardsRemaining(ps[1..])
  }

  /** All cards held in hands, as a multiset. */
  function CardsHeld(ps: seq<Player>): (m: multiset<Card>)
    ensures |m| == CardsRemaining(ps)
  {
    if ps == [] then multiset{} else multiset(ps[0].hand) + CardsHeld(ps[1..])
  }

  /** Giving card `c` to seat `j` adds exactly `c` to the cards held. */
  lemma {:induction false} CardsHeldPush(ps: seq<Player>, j: nat, c: Card)
    requires j < |ps|
    ensures CardsHeld(ps[j := ps[j].(hand := ps[j].hand + [c])]) == CardsHeld(ps) + multiset{c}
  {
    var qs := ps[j := ps[j].(hand := ps[j].hand + [c])];
    if j == 0 {
      assert qs[1..] == ps[1..];
    } else {
      CardsHeldPush(ps[1..], j - 1, c);
      assert qs[1..] == ps[1..][j - 1 := ps[1..][j - 1].(hand := ps[1..][j - 1].hand + [c])];
    }
  }

  /** Moving the front of `rest` into seat `j` keeps the cards held plus the cards left. */
  lemma DealOne(ps: seq<Player>, j: nat, rest: seq<Card>)
    requires j < |ps| && rest != []
    ensures CardsHeld(ps[j := ps[j].(hand := ps[j].hand + [rest[0]])]) + multiset(rest[1..])
         == CardsHeld(ps) + multiset(rest)
  {
    CardsHeldPush(ps, j, rest[0]);
    assert rest == [rest[0]] + rest[1..];
  }
}

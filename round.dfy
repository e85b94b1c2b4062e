/**
 * The round engine's pure parts: what each seat reveals, who wins a round,
 * which attribute a bot calls, and who wins the game.
 */
module Round {
  import opened Model

  /** The card a seat reveals: its front card, or nothing for an empty hand. */
  function Reveal(p: Player): Option<Card> {
    if p.hand == [] then None else Some(p.hand[0])
  }

  /** The seat after its reveal: the front card is gone, an empty hand stays empty. */
  function AfterReveal(p: Player): Player {
    p.(hand := if p.hand == [] then [] else p.hand[1..])
  }

  /** The revealed cards (the non-null reveals) as a multiset. */
  function RevealedCards(tops: seq<Option<Card>>): multiset<Card> {
    if tops == [] then multiset{} else Shown(tops[0]) + RevealedCards(tops[1..])
  }

  /** The card one reveal puts on the table, if any. */
  function Shown(t: Option<Card>): multiset<Card> {
    match t
    case None => multiset{}
    case Some(c) => multiset{c}
  }

  /** Every seat reveals and discards its front card; empty hands reveal nothing. */
  method RevealAll(before: seq<Player>) returns (after: seq<Player>, tops: seq<Option<Card>>)
    ensures |after| == |before| == |tops|
    ensures forall i :: 0 <= i < |before| ==> tops[i] == Reveal(before[i]) && after[i] == AfterReveal(before[i])
  {
    after := before;
    tops := [];
    for i := 0 to |before|
      invariant |after| == |before| && |tops| == i
      invariant forall k :: 0 <= k < i ==> tops[k] == Reveal(before[k]) && after[k] == AfterReveal(before[k])
      invariant forall k :: i <= k < |before| ==> after[k] == before[k]
    {
      var p := after[i];
      if p.hand != [] {
        tops := tops + [Some(p.hand[0])];
        after := after[i := p.(hand := p.hand[1..])];
      } else {
        tops := tops + [None];
      }
    }
  }

  /**
   * Seat `w` wins the round on `attr`: it revealed a card, no reveal beats it,
   * and every earlier seat's reveal is strictly lower (first maximal seat wins).
   */
  predicate IsRoundWinner(tops: seq<Option<Card>>, attr: string, w: int) {
    && 0 <= w < |tops|
    && tops[w].Some?
    && (forall i :: 0 <= i < |tops| && tops[i].Some? ==>
          StatOrZero(tops[i].value, attr) <= StatOrZero(tops[w].value, attr))
    && (forall i :: 0 <= i < w && tops[i].Some? ==>
          StatOrZero(tops[i].value, attr) < StatOrZero(tops[w].value, attr))
  }

  /**
   * The seat-order scan that picks the round winner: the incumbent is replaced
   * only on a strictly greater value; `best == None` stands for -Infinity.
   */
  method ScanRoundWinner(tops: seq<Option<Card>>, attr: string) returns (w: int)
    requires exists i :: 0 <= i < |tops| && tops[i].Some?
    ensures IsRoundWinner(tops, attr, w)
  {
    var best: Option<int> := None;
    w := -1;
    for i := 0 to |tops|
      invariant best.None? <==> w == -1
      invariant best.None? ==> forall k :: 0 <= k < i ==> tops[k].None?
      invariant best.Some? ==> 0 <= w < i && tops[w].Some? && best.value == StatOrZero(tops[w].value, attr)
      invariant best.Some? ==> forall k :: 0 <= k < i && tops[k].Some? ==> StatOrZero(tops[k].value, attr) <= best.value
      invariant best.Some? ==> forall k :: 0 <= k < w && tops[k].Some? ==> StatOrZero(tops[k].value, attr) < best.value
    {
      match tops[i]
      case None =>
      case Some(c) =>
        var v := StatOrZero(c, attr);
        if best.None? || v > best.value {
          best := Some(v);
          w := i;
        }
    }
  }

  /** Every seat's reveal, in seat order. */
  function Reveals(ps: seq<Player>): (tops: seq<Option<Card>>)
    ensures |tops| == |ps|
  {
    if ps == [] then [] else [Reveal(ps[0])] + Reveals(ps[1..])
  }

  /** Every seat after its reveal, in seat order. */
  function Popped(ps: seq<Player>): (qs: seq<Player>)
    ensures |qs| == |ps|
  {
    if ps == [] then [] else [AfterReveal(ps[0])] + Popped(ps[1..])
  }

  /** Seat `w` credited with one more round win. */
  function CreditWin(ps: seq<Player>, w: int): (qs: seq<Player>)
    requires 0 <= w < |ps|
    ensures |qs| == |ps|
  {
    ps[w := ps[w].(totalWins := ps[w].totalWins + 1)]
  }

  /** The reveals and the popped seats, seat by seat. */
  lemma {:induction false} ShowdownAt(ps: seq<Player>)
    ensures forall i :: 0 <= i < |ps| ==> Reveals(ps)[i] == Reveal(ps[i]) && Popped(ps)[i] == AfterReveal(ps[i])
  {
    if ps != [] {
      ShowdownAt(ps[1..]);
      assert forall i :: 1 <= i < |ps| ==> ps[i] == ps[1..][i - 1];
    }
  }

  /** Only hands count: seats with the same hands hold the same cards. */
  lemma {:induction false} SameHandsSameCards(ps: seq<Player>, qs: seq<Player>)
    requires |ps| == |qs|
    requires forall i :: 0 <= i < |ps| ==> ps[i].hand == qs[i].hand
    ensures CardsHeld(ps) == CardsHeld(qs)
  {
    if ps != [] {
      SameHandsSameCards(ps[1..], qs[1..]);
    }
  }

  /** One seat's reveal splits its hand into the card shown and the cards kept. */
  lemma RevealOne(p: Player)
    ensures multiset(p.hand) == multiset(AfterReveal(p).hand) + Shown(Reveal(p))
  {
    if p.hand != [] {
      assert p.hand == [p.hand[0]] + p.hand[1..];
    }
  }

  /** Revealing conserves cards: what was held is what is still held plus what was revealed. */
  lemma {:induction false} PopConserves(ps: seq<Player>)
    ensures CardsHeld(ps) == CardsHeld(Popped(ps)) + RevealedCards(Reveals(ps))
  {
    if ps != [] {
      var p, rest := ps[0], ps[1..];
      PopConserves(rest);
      assert Popped(ps)[1..] == Popped(rest);
      assert Reveals(ps)[1..] == Reveals(rest);
      var kept, shown := multiset(AfterReveal(p).hand), Shown(Reveal(p));
      RevealOne(p);
      assert CardsHeld(Popped(ps)) == kept + CardsHeld(Popped(rest));
      assert RevealedCards(Reveals(ps)) == shown + RevealedCards(Reveals(rest));
    }
  }

  /**
   * `before` played a round on `attr` and became `after`: every seat revealed
   * (`tops`) and lost its front card, and the round winner `w` gained a win.
   */
  predicate IsRoundOf(before: seq<Player>, attr: string, tops: seq<Option<Card>>, w: int, after: seq<Player>) {
    && tops == Reveals(before)
    && IsRoundWinner(tops, attr, w)
    && after == CreditWin(Popped(before), w)
  }

  /**
   * Seat by seat: a round shows each seat's front card, removes it from the
   * hand, and adds one win to the round winner's total and to no other seat's.
   */
  lemma RoundOfPointwise(before: seq<Player>, attr: string, tops: seq<Option<Card>>, w: int, after: seq<Player>)
    requires IsRoundOf(before, attr, tops, w, after)
    ensures |after| == |before| == |tops| && 0 <= w < |before|
    ensures forall i :: 0 <= i < |before| ==> tops[i] == Reveal(before[i])
    ensures forall i :: 0 <= i < |before| ==>
              after[i] == AfterReveal(before[i]).(totalWins := before[i].totalWins + if i == w then 1 else 0)
  {
    ShowdownAt(before);
  }

  /** A round moves cards only from hands to the table: none is created or lost. */
  lemma RoundConserves(before: seq<Player>, attr: string, tops: seq<Option<Card>>, w: int, after: seq<Player>)
    requires IsRoundOf(before, attr, tops, w, after)
    ensures CardsHeld(before) == CardsHeld(after) + RevealedCards(tops)
  {
    PopConserves(before);
    SameHandsSameCards(after, Popped(before));
  }

  /**
   * A whole round on the seats' values: every seat reveals, the round winner
   * `w` is chosen on `attr` and gains exactly one win; no card is lost.
   * `socket.js` indexes seat -1 when nobody revealed, so a card in play is required.
   */
  method PlayRound(before: seq<Player>, attr: string) returns (after: seq<Player>, tops: seq<Option<Card>>, w: int)
    requires CardsRemaining(before) > 0
    ensures |after| == |before| == |tops| && 0 <= w < |before|
    ensures IsRoundOf(before, attr, tops, w, after)
  {
    var popped;
    popped, tops := RevealAll(before);
    ghost var holder :| 0 <= holder < |before| && before[holder].hand != [];
    assert tops[holder].Some?;
    w := ScanRoundWinner(tops, attr);
    after := CreditWin(popped, w);
    ShowdownAt(before);
    assert popped == Popped(before);
    assert tops == Reveals(before);
  }

  /** At most one seat satisfies the round-winner condition. */
  lemma RoundWinnerUnique(tops: seq<Option<Card>>, attr: string, w1: int, w2: int)
    requires IsRoundWinner(tops, attr, w1) && IsRoundWinner(tops, attr, w2)
    ensures w1 == w2
  {
  }

  /** Values [10, 20, 20, 5] on one attribute: seat 1 wins, never seat 2. */
  lemma TieGoesToFirstSeat()
    ensures var tops := [Some(Card("a", "", map["x" := 10])), Some(Card("b", "", map["x" := 20])),
                            Some(Card("c", "", map["x" := 20])), Some(Card("d", "", map["x" := 5]))];
            IsRoundWinner(tops, "x", 1) && !IsRoundWinner(tops, "x", 2)
  {
  }

  /** A stat lookup as the bot reads it: a missing attribute is undefined, not 0. */
  function Lookup(c: Card, attr: string): Option<int> {
    if attr in c.stats then Some(c.stats[attr]) else None
  }

  /**
   * `attrs[k]` is the bot's call on its top card: the first attribute (in `attrs`
   * order) whose stat is maximal. An undefined stat never compares greater, so
   * when the first attribute is missing from the card the bot calls it anyway.
   */
  predicate IsBotChoice(top: Card, attrs: seq<string>, k: int) {
    && 0 <= k < |attrs|
    && if attrs[0] !in top.stats then k == 0
       else
         && attrs[k] in top.stats
         && (forall j :: 0 <= j < |attrs| && attrs[j] in top.stats ==> top.stats[attrs[j]] <= top.stats[attrs[k]])
         && (forall j :: 0 <= j < k && attrs[j] in top.stats ==> top.stats[attrs[j]] < top.stats[attrs[k]])
  }

  /** The bot's call is determined by its card: at most one index satisfies IsBotChoice. */
  lemma BotChoiceUnique(top: Card, attrs: seq<string>, k1: int, k2: int)
    requires IsBotChoice(top, attrs, k1) && IsBotChoice(top, attrs, k2)
    ensures k1 == k2
  {
  }

  /** The bot's scan over `attrs`; returns the index of the attribute it calls. */
  method PickAttribute(top: Card, attrs: seq<string>) returns (k: int)
    requires |attrs| > 0
    ensures IsBotChoice(top, attrs, k)
  {
    k := 0;
    var bestVal := Lookup(top, attrs[0]);
    for i := 0 to |attrs|
      invariant 0 <= k < |attrs|
      invariant bestVal.None? <==> attrs[0] !in top.stats
      invariant bestVal.None? ==> k == 0
      invariant bestVal.Some? ==> attrs[k] in top.stats && bestVal.value == top.stats[attrs[k]]
      invariant bestVal.Some? ==> k <= i || k == 0
      invariant bestVal.Some? ==> forall j :: 0 <= j < i && attrs[j] in top.stats ==> top.stats[attrs[j]] <= bestVal.value
      invariant bestVal.Some? ==> forall j :: 0 <= j < k && attrs[j] in top.stats ==> top.stats[attrs[j]] < bestVal.value
    {
      var v := Lookup(top, attrs[i]);
      if v.Some? && bestVal.Some? && v.value > bestVal.value {
        bestVal := v;
        k := i;
      }
    }
  }

  /**
   * The final-winner reduce: a left fold over the seats starting from null,
   * where a seat replaces the incumbent when its wins exceed the incumbent's
   * (or 0 when there is none).
   */
  function FinalWinner(ps: seq<Player>): (w: Option<nat>)
    ensures w.Some? ==> w.value < |ps|
  {
    if ps == [] then None
    else
      var b := FinalWinner(ps[..|ps| - 1]);
      var threshold := match b case None => 0 case Some(j) => ps[j].totalWins;
      if ps[|ps| - 1].totalWins > threshold then Some(|ps| - 1) else b
  }

  /** Seat `i` has the most wins, more than 0, and strictly more than every earlier seat. */
  predicate IsFinalWinner(ps: seq<Player>, i: int) {
    && 0 <= i < |ps|
    && ps[i].totalWins > 0
    && (forall j :: 0 <= j < |ps| ==> ps[j].totalWins <= ps[i].totalWins)
    && (forall j :: 0 <= j < i ==> ps[j].totalWins < ps[i].totalWins)
  }

  /** The reduce yields no winner exactly when nobody won a round, and otherwise the first seat with the most wins. */
  lemma {:induction false} FinalWinnerSpec(ps: seq<Player>)
    ensures FinalWinner(ps).None? <==> forall j :: 0 <= j < |ps| ==> ps[j].totalWins == 0
    ensures FinalWinner(ps).Some? ==> IsFinalWinner(ps, FinalWinner(ps).value)
  {
    if ps != [] {
      var pre := ps[..|ps| - 1];
      FinalWinnerSpec(pre);
      assert forall j :: 0 <= j < |pre| ==> pre[j] == ps[j];
    }
  }

  /** Final wins [3, 5, 5, 2]: seat 1 is declared the winner. */
  lemma FirstMaximalSeatWinsGame(ps: seq<Player>)
    requires |ps| == 4
    requires ps[0].totalWins == 3 && ps[1].totalWins == 5 && ps[2].totalWins == 5 && ps[3].totalWins == 2
    ensures FinalWinner(ps) == Some(1)
  {
    FinalWinnerSpec(ps);
  }
}

/**
 * Dealing a game: the Fisher-Yates shuffle of a copy of the deck and the
 * round-robin deal of a fixed number of cards per seat.
 */
module Deal {
  import opened Model

  function Min(a: int, b: int): int {
    if a <= b then a else b
  }

  /**
   * Fisher-Yates on a copy of the deck, in place. `rand(i)` stands for the
   * random draw at position `i`; `rand(i) % (i + 1)` is the index it swaps
   * with, so every index in [0, i] is reachable.
   */
  method Shuffle(deck: seq<Card>, rand: nat -> nat) returns (shuffled: seq<Card>)
    ensures |shuffled| == |deck|
    ensures multiset(shuffled) == multiset(deck)
  {
    var a := new Card[|deck|](k requires 0 <= k < |deck| => deck[k]);
    assert a[..] == deck;
    var i := |deck| - 1;
    while i > 0
      invariant i < |deck|
      invariant a.Length == |deck|
      invariant multiset(a[..]) == multiset(deck)
    {
      var j := rand(i) % (i + 1);
      a[i], a[j] := a[j], a[i];
      i := i - 1;
    }
    shuffled := a[..];
  }

  /**
   * Where pass `pass` of a deal over `n` seats starts in the shuffled deck,
   * i.e. pass * n, counted up one pass at a time.
   */
  function PassStart(n: nat, pass: nat): nat {
    if pass == 0 then 0 else PassStart(n, pass - 1) + n
  }

  lemma {:induction false} PassStartIsProduct(n: nat, pass: nat)
    ensures PassStart(n, pass) == pass * n
  {
    if pass > 0 {
      PassStartIsProduct(n, pass - 1);
      assert pass * n == (pass - 1) * n + n;
    }
  }

  /**
   * The hand seat `j` of `n` receives from `shuffled` after `passes` passes of
   * the deal: in pass k it takes the card at position k * n + j, while the
   * deck lasts.
   */
  function DealtHand(shuffled: seq<Card>, n: nat, j: nat, passes: nat): (h: seq<Card>)
    requires j < n
    ensures |h| <= passes
    ensures passes > 0 && PassStart(n, passes - 1) + j < |shuffled| ==> |h| == passes
  {
    if passes == 0 then []
    else
      var prev := DealtHand(shuffled, n, j, passes - 1);
      var pos := PassStart(n, passes - 1) + j;
      if pos < |shuffled| then prev + [shuffled[pos]] else prev
  }

  /** Seat j's k-th card is the card at position k * n + j of the shuffled deck. */
  lemma {:induction false} DealtHandAt(shuffled: seq<Card>, n: nat, j: nat, passes: nat, k: nat)
    requires j < n && k < |DealtHand(shuffled, n, j, passes)|
    ensures k * n + j < |shuffled|
    ensures DealtHand(shuffled, n, j, passes)[k] == shuffled[k * n + j]
  {
    var prev := DealtHand(shuffled, n, j, passes - 1);
    if k < |prev| {
      DealtHandAt(shuffled, n, j, passes - 1, k);
    }
    PassStartIsProduct(n, k);
  }

  /** One more pass adds the card at position PassStart(n, passes) + j, if the deck reaches it. */
  lemma DealtHandNext(shuffled: seq<Card>, n: nat, j: nat, passes: nat)
    requires j < n
    ensures DealtHand(shuffled, n, j, passes + 1) == DealtHand(shuffled, n, j, passes) + CardAt(shuffled, PassStart(n, passes) + j)
  {
  }

  /** The card at position `pos` as a one-card sequence, or nothing past the end of the deck. */
  function CardAt(s: seq<Card>, pos: nat): seq<Card> {
    if pos < |s| then [s[pos]] else []
  }

  /** Seat order bounds the gap: an earlier seat holds as many cards as a later one, or one more. */
  lemma HandSizesBalanced(shuffled: seq<Card>, n: nat, j1: nat, j2: nat, passes: nat)
    requires j1 < j2 < n
    ensures |DealtHand(shuffled, n, j2, passes)| <= |DealtHand(shuffled, n, j1, passes)|
    ensures |DealtHand(shuffled, n, j1, passes)| <= |DealtHand(shuffled, n, j2, passes)| + 1
  {
    HandSizesGap(shuffled, n, j1, j2, passes);
  }

  /** The gap is 0, or 1 once the later seat has run past the end of the deck. */
  lemma {:induction false} HandSizesGap(shuffled: seq<Card>, n: nat, j1: nat, j2: nat, passes: nat)
    requires j1 < j2 < n
    ensures var a, b := |DealtHand(shuffled, n, j1, passes)|, |DealtHand(shuffled, n, j2, passes)|;
            a == b || (a == b + 1 && passes > 0 && PassStart(n, passes - 1) + j2 >= |shuffled|)
  {
    if passes > 0 {
      HandSizesGap(shuffled, n, j1, j2, passes - 1);
    }
  }

  /**
   * `ps` and `kitty` are a deal of `deck`: `shuffled` is a permutation of `deck`,
   * seat j holds DealtHand(shuffled, |ps|, j, perSeat) and the kitty is the
   * undealt suffix of `shuffled`.
   */
  ghost predicate IsDealOf(deck: seq<Card>, shuffled: seq<Card>, ps: seq<Player>, kitty: seq<Card>, perSeat: nat) {
    && |shuffled| == |deck|
    && multiset(shuffled) == multiset(deck)
    && |ps| > 0
    && (forall j :: 0 <= j < |ps| ==> ps[j].hand == DealtHand(shuffled, |ps|, j, perSeat))
    && kitty == shuffled[Min(perSeat * |ps|, |shuffled|)..]
  }

  /**
   * The first j seats of `ps` have taken their card of this pass from `rest`
   * (while it lasted), `rest'` is what is left of it, later seats are
   * untouched, and no card was created or lost.
   */
  predicate PassedTo(ps: seq<Player>, rest: seq<Card>, ps': seq<Player>, rest': seq<Card>, j: nat) {
    && j <= |ps| == |ps'|
    && rest' == rest[Min(j, |rest|)..]
    && (forall k :: 0 <= k < j ==> ps'[k] == ps[k].(hand := ps[k].hand + if k < |rest| then [rest[k]] else []))
    && (forall k :: j <= k < |ps| ==> ps'[k] == ps[k])
    && CardsHeld(ps') + multiset(rest') == CardsHeld(ps) + multiset(rest)
  }

  /** Seat j takes the front of what is left. */
  lemma PassStepDeal(ps: seq<Player>, rest: seq<Card>, ps': seq<Player>, rest': seq<Card>, j: nat)
    requires PassedTo(ps, rest, ps', rest', j) && j < |ps| && rest' != []
    ensures PassedTo(ps, rest, ps'[j := ps'[j].(hand := ps'[j].hand + [rest'[0]])], rest'[1..], j + 1)
  {
    assert j < |rest| && rest'[0] == rest[j];
    assert rest'[1..] == rest[j + 1..];
    DealOne(ps', j, rest');
  }

  /** With nothing left, seat j takes nothing. */
  lemma PassStepSkip(ps: seq<Player>, rest: seq<Card>, ps': seq<Player>, rest': seq<Card>, j: nat)
    requires PassedTo(ps, rest, ps', rest', j) && j < |ps| && rest' == []
    ensures PassedTo(ps, rest, ps', rest', j + 1)
  {
  }

  /** One pass of the deal: each seat in order takes the front of `rest` while it lasts. */
  method DealPass(ps: seq<Player>, rest: seq<Card>) returns (ps': seq<Player>, rest': seq<Card>)
    ensures |ps'| == |ps|
    ensures forall k :: 0 <= k < |ps| ==>
              ps'[k] == ps[k].(hand := ps[k].hand + if k < |rest| then [rest[k]] else [])
    ensures rest' == rest[Min(|ps|, |rest|)..]
    ensures CardsHeld(ps') + multiset(rest') == CardsHeld(ps) + multiset(rest)
  {
    ps', rest' := ps, rest;
    assert rest[0..] == rest;
    for j := 0 to |ps|
      invariant PassedTo(ps, rest, ps', rest', j)
    {
      if rest' != [] {
        PassStepDeal(ps, rest, ps', rest', j);
        ps' := ps'[j := ps'[j].(hand := ps'[j].hand + [rest'[0]])];
        rest' := rest'[1..];
      } else {
        PassStepSkip(ps, rest, ps', rest', j);
      }
    }
  }

  /** Seat `j`'s hand after one more pass over the rest of the deck is its deal after `pass + 1` passes. */
  lemma SeatAfterPass(shuffled: seq<Card>, n: nat, j: nat, pass: nat, rest: seq<Card>, hand: seq<Card>)
    requires j < n
    requires rest == shuffled[Min(PassStart(n, pass), |shuffled|)..]
    requires hand == DealtHand(shuffled, n, j, pass)
    ensures hand + (if j < |rest| then [rest[j]] else []) == DealtHand(shuffled, n, j, pass + 1)
  {
    DealtHandNext(shuffled, n, j, pass);
    var pos := PassStart(n, pass) + j;
    if j < |rest| {
      assert pos < |shuffled| && rest[j] == shuffled[pos];
    } else {
      assert pos >= |shuffled|;
    }
  }

  /** One more pass takes |seats| more cards off the undealt suffix, while they last. */
  lemma RestAfterPass(shuffled: seq<Card>, n: nat, pass: nat, rest: seq<Card>)
    requires rest == shuffled[Min(PassStart(n, pass), |shuffled|)..]
    ensures rest[Min(n, |rest|)..] == shuffled[Min(PassStart(n, pass + 1), |shuffled|)..]
  {
  }

  /**
   * The deal loop: `perSeat` passes over the seats in order, each seat taking
   * the front of the remaining deck while it lasts; what is left is the kitty.
   * The seats are given with empty hands.
   */
  method DealRounds(seats: seq<Player>, shuffled: seq<Card>, perSeat: nat) returns (ps: seq<Player>, kitty: seq<Card>)
    requires 0 < |seats|
    requires forall j :: 0 <= j < |seats| ==> seats[j].hand == []
    ensures |ps| == |seats|
    ensures forall j :: 0 <= j < |ps| ==> ps[j] == seats[j].(hand := DealtHand(shuffled, |ps|, j, perSeat))
    ensures kitty == shuffled[Min(perSeat * |ps|, |shuffled|)..]
    ensures CardsHeld(ps) + multiset(kitty) == multiset(shuffled)
  {
    var n := |seats|;
    ps, kitty := seats, shuffled;
    assert CardsHeld(seats) == multiset{} by {
      assert CardsRemaining(seats) == 0;
    }
    for i := 0 to perSeat
      invariant |ps| == n
      invariant kitty == shuffled[Min(PassStart(n, i), |shuffled|)..]
      invariant forall j :: 0 <= j < n ==> ps[j] == seats[j].(hand := DealtHand(shuffled, n, j, i))
      invariant CardsHeld(ps) + multiset(kitty) == multiset(shuffled)
    {
      ghost var prev, prevKitty := ps, kitty;
      ps, kitty := DealPass(ps, kitty);
      forall j | 0 <= j < n
        ensures ps[j] == seats[j].(hand := DealtHand(shuffled, n, j, i + 1))
      {
        SeatAfterPass(shuffled, n, j, i, prevKitty, prev[j].hand);
      }
      RestAfterPass(shuffled, n, i, prevKitty);
    }
    PassStartIsProduct(n, perSeat);
  }

  /** Every seat's hand is emptied; nothing else about a seat changes. */
  method ClearHands(ps: seq<Player>) returns (qs: seq<Player>)
    ensures |qs| == |ps|
    ensures forall j :: 0 <= j < |ps| ==> qs[j] == ps[j].(hand := [])
  {
    qs := ps;
    for i := 0 to |ps|
      invariant |qs| == |ps|
      invariant forall k :: 0 <= k < i ==> qs[k] == ps[k].(hand := [])
      invariant forall k :: i <= k < |ps| ==> qs[k] == ps[k]
    {
      qs := qs[i := qs[i].(hand := [])];
    }
  }

  /**
   * The deal at the start of a game: shuffle a copy of the deck, empty every
   * hand, deal `perSeat` passes and keep the rest as the kitty. The seats keep
   * everything but their hands, and every card of the deck ends up in exactly
   * one hand or in the kitty.
   */
  method DealGame(seats: seq<Player>, deck: seq<Card>, rand: nat -> nat, perSeat: nat)
    returns (shuffled: seq<Card>, ps: seq<Player>, kitty: seq<Card>)
    requires 0 < |seats|
    ensures |ps| == |seats|
    ensures forall j :: 0 <= j < |ps| ==> ps[j] == seats[j].(hand := ps[j].hand)
    ensures IsDealOf(deck, shuffled, ps, kitty, perSeat)
    ensures CardsHeld(ps) + multiset(kitty) == multiset(deck)
  {
    shuffled := Shuffle(deck, rand);
    var empty := ClearHands(seats);
    ps, kitty := DealRounds(empty, shuffled, perSeat);
  }
}

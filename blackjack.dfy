/** The Blackjack environment of `src/environments/blackjack.ts`: hand scoring, the
    Fisher–Yates shuffle and the dealer/player step machine. */
module Blackjack {
  import opened Wrappers
  import opened Core
  import Rng

  /** Ace is 1; jack, queen and king count 10 like the ten. */
  type Card = c: int | 1 <= c <= 10 witness 1
  type Hand = seq<Card>

  const ActionNotInRange := "Action is not in range"
  const EnvIsDone := "Env is done"
  const NotEnoughCards := "Not enough cards"

  /** The card at rank position r of a suit (0 is the ace, 12 the king): min(10, r + 1). */
  function Rank(r: int): Card
    requires 0 <= r < 13
  {
    if r + 1 < 10 then r + 1 else 10
  }

  /** Four suits of 1, 2, …, 9, 10, J, Q, K. */
  function UnshuffledDeck(): seq<Card>
  {
    seq(52, i requires 0 <= i < 52 => Rank(i % 13))
  }

  function Suit(): seq<Card>
  {
    seq(13, r requires 0 <= r < 13 => Rank(r))
  }

  lemma SuitCount(v: int)
    requires 1 <= v <= 10
    ensures multiset(Suit())[v] == if v == 10 then 4 else 1
  {
    var s := Suit();
    if v == 10 {
      assert s == s[..9] + s[9..];
      assert s[9..] == [10, 10, 10, 10];
      assert v !in s[..9];
      assert multiset(s[..9])[v] == 0;
    } else {
      assert s == s[..v - 1] + [v] + s[v..];
      assert v !in s[..v - 1];
      assert v !in s[v..];
      assert multiset(s[..v - 1])[v] == 0;
      assert multiset(s[v..])[v] == 0;
    }
  }

  lemma QuarterIsSuit(k: int)
    requires 0 <= k < 4
    ensures UnshuffledDeck()[13 * k..13 * k + 13] == Suit()
  {
    var quarter := UnshuffledDeck()[13 * k..13 * k + 13];
    forall r | 0 <= r < 13 ensures quarter[r] == Suit()[r] {
      assert (13 * k + r) % 13 == r;
    }
  }

  lemma UnshuffledDeckIsFourSuits()
    ensures UnshuffledDeck() == Suit() + Suit() + Suit() + Suit()
  {
    var deck := UnshuffledDeck();
    QuarterIsSuit(0);
    QuarterIsSuit(1);
    QuarterIsSuit(2);
    QuarterIsSuit(3);
    assert deck == deck[..13] + deck[13..26] + deck[26..39] + deck[39..];
  }

  /** The unshuffled deck has 52 cards: four each of 1 to 9 and sixteen 10s. */
  lemma UnshuffledDeckComposition()
    ensures |UnshuffledDeck()| == 52
    ensures forall v :: 1 <= v <= 9 ==> multiset(UnshuffledDeck())[v] == 4
    ensures multiset(UnshuffledDeck())[10] == 16
  {
    UnshuffledDeckIsFourSuits();
    var s := Suit();
    assert multiset(UnshuffledDeck()) == multiset(s) + multiset(s) + multiset(s) + multiset(s);
    forall v | 1 <= v <= 10 ensures multiset(UnshuffledDeck())[v] == 4 * multiset(s)[v] {
    }
    forall v | 1 <= v <= 9 ensures multiset(UnshuffledDeck())[v] == 4 {
      SuitCount(v);
    }
    SuitCount(10);
  }

  /** `sum` of a hand, every ace counted as 1. */
  function Total(hand: Hand): (t: int)
    ensures t >= |hand|
  {
    if hand == [] then 0 else hand[0] + Total(hand[1..])
  }

  /** The number of aces in a hand. */
  function Aces(hand: Hand): (n: nat)
    ensures n <= |hand|
    ensures n > 0 <==> 1 in hand
  {
    if hand == [] then 0
    else (if hand[0] == 1 then 1 else 0) + Aces(hand[1..])
  }

  predicate HasUsableAce(hand: Hand)
  {
    1 in hand && Total(hand) + 10 <= 21
  }

  /** The hand's value, one ace counted as 11 when that keeps it at most 21. */
  function SumHand(hand: Hand): int
  {
    if HasUsableAce(hand) then Total(hand) + 10 else Total(hand)
  }

  predicate IsBust(hand: Hand)
  {
    SumHand(hand) > 21
  }

  function ScoreHand(hand: Hand): int
  {
    if IsBust(hand) then 0 else SumHand(hand)
  }

  /** `Number(playerScore > dealerScore) - Number(playerScore < dealerScore)`. */
  function CompareHands(player: Hand, dealer: Hand): int
  {
    var playerScore := ScoreHand(player);
    var dealerScore := ScoreHand(dealer);
    (if playerScore > dealerScore then 1 else 0) - (if playerScore < dealerScore then 1 else 0)
  }

  /** What a fresh deal shows: a two-card player value in 4..21, the dealer's up card and
      the usable-ace flag. */
  predicate IsDealtObservation(o: Observation)
  {
    |o| == 3 && 4.0 <= o[0] <= 21.0 && 1.0 <= o[1] <= 10.0 && (o[2] == 0.0 || o[2] == 1.0)
  }

  /** A two-card hand is worth 4 to 21: it cannot bust, and two aces make 12. */
  lemma TwoCardValue(hand: Hand)
    requires |hand| == 2
    ensures 4 <= SumHand(hand) <= 21
  {
    var first: int, second: int := hand[0], hand[1];
    assert Total(hand) == first + second by {
      assert hand[1..][1..] == [];
      assert Total(hand[1..]) == second + Total(hand[1..][1..]);
    }
    assert 1 in hand <==> hand[0] == 1 || hand[1] == 1;
  }

  predicate IsNatural(hand: Hand)
  {
    |hand| == 2 && 1 in hand && 10 in hand
  }

  /** Counting aces as 1 or 11: `SumHand` is the largest count that does not exceed 21
      (or the all-ones count when every count busts), and it is itself such a count. */
  lemma SumHandIsBestCount(hand: Hand, elevens: nat)
    requires elevens <= Aces(hand)
    requires Total(hand) + 10 * elevens <= 21
    ensures Total(hand) + 10 * elevens <= SumHand(hand) <= 21
    ensures SumHand(hand) == Total(hand) || (Aces(hand) >= 1 && SumHand(hand) == Total(hand) + 10)
  {
    if elevens >= 1 {
      assert 1 in hand;
    }
  }

  /** An ace is counted as 11 only when that does not bust, so a hand is bust exactly when
      its all-ones count exceeds 21. */
  lemma BustIffTotalOver21(hand: Hand)
    ensures IsBust(hand) <==> Total(hand) > 21
    ensures HasUsableAce(hand) ==> 11 <= SumHand(hand) <= 21
  {
  }

  /** The score is 0 for a bust hand and the hand's value otherwise, so it lies in [0, 21];
      a non-empty hand scores 0 only when bust. */
  lemma ScoreHandRange(hand: Hand)
    ensures 0 <= ScoreHand(hand) <= 21
    ensures ScoreHand(hand) == (if SumHand(hand) > 21 then 0 else SumHand(hand))
    ensures hand != [] ==> (ScoreHand(hand) == 0 <==> IsBust(hand))
  {
  }

  /** The comparison is -1, 0 or 1, its sign is that of the score difference, and it is
      antisymmetric. */
  lemma CompareHandsSign(a: Hand, b: Hand)
    ensures CompareHands(a, b) in {-1, 0, 1}
    ensures CompareHands(a, b) == 1 <==> ScoreHand(a) > ScoreHand(b)
    ensures CompareHands(a, b) == 0 <==> ScoreHand(a) == ScoreHand(b)
    ensures CompareHands(a, b) == -CompareHands(b, a)
  {
  }

  /** A natural is an ace and a ten-card: it is worth 21 with a usable ace. */
  lemma NaturalIsTwentyOne(hand: Hand)
    requires IsNatural(hand)
    ensures hand == [1, 10] || hand == [10, 1]
    ensures HasUsableAce(hand) && SumHand(hand) == 21
  {
    assert hand == [hand[0], hand[1]];
    assert hand[1..] == [hand[1]];
    assert Total([hand[1]]) == hand[1] as int by {
      assert [hand[1]][1..] == [];
    }
  }

  /** The examples of the scoring rules: an ace and a ten make 21 with a usable ace; two tens
      and a five are bust and score 0. */
  lemma ScoringExamples()
    ensures HasUsableAce([1, 10]) && SumHand([1, 10]) == 21
    ensures SumHand([10, 10, 5]) == 25 && IsBust([10, 10, 5]) && ScoreHand([10, 10, 5]) == 0
  {
    assert Total([1, 10]) == 11 by {
      assert [1, 10][1..] == [10];
    }
    assert Total([10, 10, 5]) == 25 by {
      assert [10, 10, 5][1..] == [10, 5];
      assert [10, 5][1..] == [5];
    }
  }

  /** `applyNaturalFactor`: a win with a natural pays 1.5 when the option is on. */
  function ApplyNaturalFactor(natural: bool, reward: real, hand: Hand): real
  {
    if reward == 1.0 && natural && IsNatural(hand) then 1.5 else reward
  }

  /** The reward for standing: the comparison, raised to 1.5 for a winning natural. */
  function StandReward(natural: bool, player: Hand, dealer: Hand): real
  {
    ApplyNaturalFactor(natural, CompareHands(player, dealer) as real, player)
  }

  lemma StandRewardValues(natural: bool, player: Hand, dealer: Hand)
    ensures StandReward(natural, player, dealer) in {-1.0, 0.0, 1.0, 1.5}
    ensures StandReward(natural, player, dealer) == 1.5
            <==> natural && IsNatural(player) && ScoreHand(player) > ScoreHand(dealer)
    ensures StandReward(natural, player, dealer) == 1.0
            <==> !(natural && IsNatural(player)) && ScoreHand(player) > ScoreHand(dealer)
  {
    CompareHandsSign(player, dealer);
  }

  /** `fisherYates`: shuffles a copy of the input; the input itself is a value and is left
      as it was. */
  method FisherYates<T(0)>(input: seq<T>, rng: Rng.Rng) returns (shuffled: seq<T>)
    modifies rng
    ensures |shuffled| == |input|
    ensures multiset(shuffled) == multiset(input)
  {
    var copy := new T[|input|](k requires 0 <= k < |input| => input[k]);
    assert copy[..] == input;
    var i := copy.Length - 1;
    while i > 0
      invariant -1 <= i < copy.Length
      invariant multiset(copy[..]) == multiset(input)
    {
      var u := rng.Uniform();
      var j := Floor(u, i + 1);
      copy[i], copy[j] := copy[j], copy[i];
      i := i - 1;
    }
    shuffled := copy[..];
  }

  /** `Math.floor(Math.random() * n)`: an index in [0, n). */
  function Floor(u: real, n: nat): (j: nat)
    requires 0.0 <= u < 1.0 && n > 0
    ensures j < n
  {
    var bound := n as real;
    var x := u * bound;
    ScaledBelow(u, bound);
    var k := x.Floor;
    assert k < n by {
      assert k as real <= x < bound;
    }
    k
  }

  /** A fraction in [0, 1) of a positive bound stays in [0, bound). */
  lemma ScaledBelow(u: real, n: real)
    requires 0.0 <= u < 1.0 && n > 0.0
    ensures 0.0 <= u * n < n
  {
    var gap := (1.0 - u) * n;
    assert gap > 0.0;
    assert u * n == n - gap;
  }

  /** The dealer went from hand `dealer0` and deck `deck0` to `dealer` and `deck` by
      drawing cards off the top of the deck, each drawn while the dealer's value was below 17. */
  ghost predicate DealerDrew(dealer0: Hand, deck0: seq<Card>, dealer: Hand, deck: seq<Card>)
  {
    && |dealer0| <= |dealer| <= |dealer0| + |deck0|
    && dealer == dealer0 + deck0[..|dealer| - |dealer0|]
    && deck == deck0[|dealer| - |dealer0|..]
    && forall k :: 0 <= k < |dealer| - |dealer0| ==> SumHand(dealer0 + deck0[..k]) < 17
  }

  lemma DealerDrewNothing(dealer: Hand, deck: seq<Card>)
    ensures DealerDrew(dealer, deck, dealer, deck)
  {
    assert dealer + deck[..0] == dealer;
  }

  lemma DealerDrewOneMore(dealer0: Hand, deck0: seq<Card>, dealer: Hand, deck: seq<Card>)
    requires DealerDrew(dealer0, deck0, dealer, deck)
    requires deck != [] && SumHand(dealer) < 17
    ensures DealerDrew(dealer0, deck0, dealer + [deck[0]], deck[1..])
  {
    var n := |dealer| - |dealer0|;
    assert deck0[..n + 1] == deck0[..n] + [deck[0]];
    assert deck0[n + 1..] == deck[1..];
    forall k | 0 <= k < n + 1 ensures SumHand(dealer0 + deck0[..k]) < 17 {
      if k == n {
        assert dealer0 + deck0[..k] == dealer;
      }
    }
  }

  class Blackjack {
    const natural: bool
    var done: bool
    var deck: seq<Card>
    var dealer: Hand
    var player: Hand

    /** Before the first reset the game is done and empty; afterwards both hands hold at
        least two cards and no card is created or lost. */
    ghost predicate Valid()
      reads this
    {
      !done ==>
        && |player| >= 2 && |dealer| >= 2
        && multiset(player) + multiset(dealer) + multiset(deck) == multiset(UnshuffledDeck())
    }

    constructor (natural: bool)
      ensures Valid()
      ensures this.natural == natural && done
      ensures deck == [] && dealer == [] && player == []
    {
      this.natural := natural;
      done := true;
      deck := [];
      dealer := [];
      player := [];
    }

    function Name(): string { "Blackjack" }
    function NumObservationDimensions(): nat { 3 }
    function NumActions(): nat { 2 }

    /** The observation: player value, dealer's up card, usable ace as 0 or 1. */
    function State(): Observation
      reads this
      requires |dealer| >= 1
    {
      [SumHand(player) as real, dealer[0] as real, if HasUsableAce(player) then 1.0 else 0.0]
    }

    method DrawCard() returns (card: Result<Card>)
      modifies this`deck
      ensures old(deck) == [] ==> card == Err(NotEnoughCards) && deck == old(deck)
      ensures old(deck) != [] ==> card == Ok(old(deck)[0]) && deck == old(deck)[1..]
    {
      if |deck| < 1 {
        return Err(NotEnoughCards);
      }
      card := Ok(deck[0]);
      deck := deck[1..];
    }

    method DrawHand() returns (hand: Result<Hand>)
      modifies this`deck
      ensures |old(deck)| >= 2 ==> hand == Ok(old(deck)[..2]) && deck == old(deck)[2..]
    {
      var first := DrawCard();
      if first.Err? {
        return Err(first.error);
      }
      var second := DrawCard();
      if second.Err? {
        return Err(second.error);
      }
      assert old(deck)[..2] == [old(deck)[0], old(deck)[1]];
      hand := Ok([first.value, second.value]);
    }

    /** Shuffles a full deck and deals two cards each to the player and the dealer. */
    method Reset(rng: Rng.Rng) returns (observation: Observation)
      modifies this, rng
      ensures Valid() && !done
      ensures |player| == 2 && |dealer| == 2 && |deck| == 48
      ensures |dealer| >= 1 && observation == State()
      ensures IsDealtObservation(observation)
    {
      var shuffled := FisherYates(UnshuffledDeck(), rng);
      deck := shuffled;
      var p := DrawHand();
      player := p.value;
      var d := DrawHand();
      dealer := d.value;
      done := false;
      assert shuffled == player + dealer + deck;
      TwoCardValue(player);
      observation := State();
    }

    /** Hit: the player draws one card; the round ends, with reward -1, exactly when the
        player is then bust. */
    method Hit() returns (result: Result<Sample>)
      requires Valid() && !done
      modifies this`deck, this`player
      ensures Valid() && dealer == old(dealer)
      ensures old(deck) == [] ==> result == Err(NotEnoughCards) && player == old(player) && deck == old(deck)
      ensures old(deck) != [] ==>
        && player == old(player) + [old(deck)[0]] && deck == old(deck)[1..]
        && result == Ok(Sample(State(), if IsBust(player) then -1.0 else 0.0, IsBust(player)))
    {
      var card := DrawCard();
      if card.Err? {
        return Err(card.error);
      }
      assert old(deck) == [card.value] + deck;
      player := player + [card.value];
      var bust := IsBust(player);
      return Ok(Sample(State(), if bust then -1.0 else 0.0, bust));
    }

    /** Stand: the dealer draws until the dealer's value is at least 17, and the round ends
        with the comparison of the two hands. */
    method Stand() returns (result: Result<Sample>)
      requires Valid() && !done
      modifies this`deck, this`dealer
      ensures Valid() && player == old(player)
      ensures DealerDrew(old(dealer), old(deck), dealer, deck)
      ensures result.Ok? ==>
        && SumHand(dealer) >= 17
        && result == Ok(Sample(State(), StandReward(natural, player, dealer), true))
      ensures result.Err? ==> result == Err(NotEnoughCards) && deck == [] && SumHand(dealer) < 17
    {
      DealerDrewNothing(dealer, deck);
      while SumHand(dealer) < 17
        invariant Valid() && player == old(player)
        invariant DealerDrew(old(dealer), old(deck), dealer, deck)
        decreases |deck|
      {
        ghost var before := deck;
        var card := DrawCard();
        if card.Err? {
          return Err(card.error);
        }
        DealerDrewOneMore(old(dealer), old(deck), dealer, before);
        assert before == [card.value] + deck;
        assert multiset(before) == multiset{card.value} + multiset(deck);
        dealer := dealer + [card.value];
      }

      var reward := CompareHands(player, dealer);
      return Ok(Sample(State(), ApplyNaturalFactor(natural, reward as real, player), true));
    }

    /** One move: any non-zero action (negative ones included) is a hit, 0 is a stand.
        The `done` field is never written here. */
    method Step(action: int) returns (result: Result<Sample>)
      requires Valid()
      modifies this
      ensures Valid()
      ensures done == old(done)
      ensures action >= 2 ==> result == Err(ActionNotInRange) && unchanged(this)
      ensures action < 2 && old(done) ==> result == Err(EnvIsDone) && unchanged(this)
      ensures action < 2 && !old(done) && action != 0 ==>
        && dealer == old(dealer)
        && (old(deck) == [] ==> result == Err(NotEnoughCards) && unchanged(this))
        && (old(deck) != [] ==>
              && player == old(player) + [old(deck)[0]] && deck == old(deck)[1..]
              && result == Ok(Sample(State(), if IsBust(player) then -1.0 else 0.0, IsBust(player))))
      ensures action == 0 && !old(done) ==>
        && player == old(player)
        && DealerDrew(old(dealer), old(deck), dealer, deck)
        && (result.Ok? ==>
              && SumHand(dealer) >= 17
              && result == Ok(Sample(State(), StandReward(natural, player, dealer), true)))
        && (result.Err? ==> result == Err(NotEnoughCards) && deck == [] && SumHand(dealer) < 17)
      ensures result.Ok? ==> |deck| <= |old(deck)|
      ensures result.Ok? && !result.value.done ==> |deck| < |old(deck)|
    {
      if action >= 2 {
        return Err(ActionNotInRange);
      }
      if done {
        return Err(EnvIsDone);
      }
      if action != 0 {
        result := Hit();
      } else {
        result := Stand();
      }
    }
  }
}

/** The board of a game: eighteen cards laid out from the shuffled word list and the key,
    the per-team count of cards still to find, the minigame's CPU move, and the codec. */
module Cards {
  import opened Common
  import opened Entities
  import opened Lists
  import opened ArrayShuffle

  /** The layout loop and the CPU move's scan both run over `0..<18`. */
  const CardCount := 18

  function OfTeam(t: Team): Card -> bool {
    (c: Card) => c.team == t
  }

  /** A card of team `t` that has not been selected yet. */
  function Unselected(t: Team): Card -> bool {
    (c: Card) => c.team == t && !c.selected
  }

  function HasWord(w: string): Card -> bool {
    (c: Card) => c.word == w
  }

  /** `getCardsRemainingForTeam`. */
  function CardsRemaining(cards: seq<Card>, t: Team): (n: nat)
    ensures n <= |cards|
  {
    |Filter(cards, Unselected(t))|
  }

  predicate DistinctWords(cards: seq<Card>) {
    forall i, j :: 0 <= i < j < |cards| ==> cards[i].word != cards[j].word
  }

  /** A team never has more cards left than it has cards. */
  lemma {:induction false} RemainingAtMostTeamCards(cards: seq<Card>, t: Team)
    ensures CardsRemaining(cards, t) <= |Filter(cards, OfTeam(t))|
  {
    if cards != [] {
      RemainingAtMostTeamCards(cards[1..], t);
    }
  }

  /** No card is left for `t` exactly when every card of `t` is selected. */
  lemma RemainingZeroIff(cards: seq<Card>, t: Team)
    ensures CardsRemaining(cards, t) == 0 <==>
      forall i :: 0 <= i < |cards| && cards[i].team == t ==> cards[i].selected
  {
    FilterEmpty(cards, Unselected(t));
  }

  /** Selecting an unselected card lowers its own team's count by one and no other. */
  lemma RemainingAfterSelect(cards: seq<Card>, k: nat, t: Team)
    requires k < |cards| && !cards[k].selected
    ensures CardsRemaining(cards[k := cards[k].(selected := true)], t) ==
      CardsRemaining(cards, t) - (if cards[k].team == t then 1 else 0)
  {
    FilterUpdate(cards, k, cards[k].(selected := true), Unselected(t));
  }

  /** What `autoEliminateOpponentTeamCard` does: among the opponent's unselected cards,
      shuffled by `draws`, the first one is the chosen card; the card of the first position
      below 18 holding its word is then selected. */
  function EliminateSpec(cards: seq<Card>, opponent: Team, draws: seq<nat>): (r: seq<Card>)
    requires ValidDraws(|Filter(cards, Unselected(opponent))|, draws)
    ensures |r| == |cards|
    ensures forall i :: 0 <= i < |cards| ==> r[i].word == cards[i].word && r[i].team == cards[i].team
    ensures forall i :: 0 <= i < |cards| && cards[i].selected ==> r[i].selected
  {
    var remaining := Filter(cards, Unselected(opponent));
    if |remaining| == 0 then cards
    else
      var chosen := FisherYates(remaining, draws, 0)[0];
      var k := IndexWhere(cards, HasWord(chosen.word));
      if k < CardCount && k < |cards| then cards[k := cards[k].(selected := true)] else cards
  }

  /** The chosen card is an unselected card of the opponent that lies on the board. */
  lemma ChosenIsRemaining(cards: seq<Card>, opponent: Team, draws: seq<nat>)
    requires ValidDraws(|Filter(cards, Unselected(opponent))|, draws)
    requires CardsRemaining(cards, opponent) > 0
    ensures var c := FisherYates(Filter(cards, Unselected(opponent)), draws, 0)[0];
      c in cards && c.team == opponent && !c.selected
  {
    var remaining := Filter(cards, Unselected(opponent));
    var c := FisherYates(remaining, draws, 0)[0];
    FisherYatesPermutes(remaining, draws, 0);
    assert c in multiset(remaining);
    FilterMember(cards, Unselected(opponent), c);
  }

  /** With no opponent card left the move changes nothing. */
  lemma EliminateNothingLeft(cards: seq<Card>, opponent: Team, draws: seq<nat>)
    requires ValidDraws(|Filter(cards, Unselected(opponent))|, draws)
    requires CardsRemaining(cards, opponent) == 0
    ensures EliminateSpec(cards, opponent, draws) == cards
  {
  }

  /** On a board of at most 18 cards with distinct words, the move selects exactly one card,
      an unselected card of the opponent: the opponent's count drops by one, every other
      team's count and every other card stay as they were. */
  lemma EliminateSelectsOne(cards: seq<Card>, opponent: Team, draws: seq<nat>)
    requires ValidDraws(|Filter(cards, Unselected(opponent))|, draws)
    requires DistinctWords(cards) && |cards| <= CardCount
    requires CardsRemaining(cards, opponent) > 0
    ensures exists k :: (0 <= k < |cards| && Unselected(opponent)(cards[k]) &&
      EliminateSpec(cards, opponent, draws) == cards[k := cards[k].(selected := true)])
    ensures CardsRemaining(EliminateSpec(cards, opponent, draws), opponent) ==
      CardsRemaining(cards, opponent) - 1
    ensures forall t :: t != opponent ==>
      CardsRemaining(EliminateSpec(cards, opponent, draws), t) == CardsRemaining(cards, t)
    ensures forall i :: 0 <= i < |cards| && cards[i].team != opponent ==>
      EliminateSpec(cards, opponent, draws)[i] == cards[i]
  {
    var remaining := Filter(cards, Unselected(opponent));
    var c := FisherYates(remaining, draws, 0)[0];
    ChosenIsRemaining(cards, opponent, draws);
    var m :| 0 <= m < |cards| && cards[m] == c;
    var k := IndexWhere(cards, HasWord(c.word));
    assert k <= m;
    assert k == m;
    RemainingAfterSelect(cards, m, opponent);
    forall t | t != opponent
      ensures CardsRemaining(EliminateSpec(cards, opponent, draws), t) == CardsRemaining(cards, t)
    {
      RemainingAfterSelect(cards, m, t);
    }
  }

  // ---- The archive format ----

  datatype CardsState = CardsState(cards: seq<Card>, key: seq<Team>, startingTeam: Team)

  /** `encodeWithCoder`: only the cards are archived. */
  function EncodeCards(s: CardsState): (p: Payload)
    ensures p.Keys == {"cards"}
  {
    map["cards" := CardList(s.cards)]
  }

  /** `init(coder:)`: a fresh collection, whose cards are replaced by the archived ones when
      there are any. `blank` is the collection the plain initializer would build. */
  function DecodeCards(p: Payload, blank: CardsState): (r: CardsState)
    ensures r.key == blank.key && r.startingTeam == blank.startingTeam
  {
    if "cards" in p && p["cards"].CardList? then blank.(cards := p["cards"].cards) else blank
  }

  /** Decoding gives back the cards; key and starting team are those of a fresh collection. */
  lemma DecodeEncodeCards(s: CardsState, blank: CardsState)
    ensures DecodeCards(EncodeCards(s), blank).cards == s.cards
    ensures DecodeCards(EncodeCards(s), blank).key == blank.key
    ensures DecodeCards(EncodeCards(s), blank).startingTeam == blank.startingTeam
  {
  }

  lemma DecodeWithoutCards(p: Payload, blank: CardsState)
    requires "cards" !in p
    ensures DecodeCards(p, blank) == blank
  {
  }

  // ---- The collection ----

  class CardCollection {
    var cards: seq<Card>
    var key: seq<Team>
    var startingTeam: Team

    function State(): CardsState
      reads this
    {
      CardsState(cards, key, startingTeam)
    }

    /** `init()`: `words` is the shuffled word list and `key` with `keyStartingTeam` the key
        object's layout; in a minigame the key is built for red, which starts. */
    constructor Init(mode: GameMode, words: seq<string>, key: seq<Team>, keyStartingTeam: Team)
      requires |words| >= CardCount && |key| >= CardCount
      ensures |cards| == CardCount
      ensures forall i :: 0 <= i < CardCount ==> cards[i] == Card(words[i], key[i], false)
      ensures this.key == key
      ensures startingTeam == if mode == MiniGame then Red else keyStartingTeam
    {
      this.key := key;
      startingTeam := if mode == MiniGame then Red else keyStartingTeam;
      var laid: seq<Card> := [];
      for i := 0 to CardCount
        invariant |laid| == i
        invariant forall j :: 0 <= j < i ==> laid[j] == Card(words[j], key[j], false)
      {
        laid := laid + [Card(words[i], key[i], false)];
      }
      cards := laid;
    }

    /** `autoEliminateOpponentTeamCard`. The scan never indexes past the last card, because
        the chosen card's word occurs no later than the chosen card itself. */
    method AutoEliminateOpponentTeamCard(opponent: Team, draws: seq<nat>)
      requires ValidDraws(|Filter(cards, Unselected(opponent))|, draws)
      modifies this
      ensures cards == EliminateSpec(old(cards), opponent, draws)
      ensures key == old(key) && startingTeam == old(startingTeam)
    {
      var remaining := Filter(cards, Unselected(opponent));
      var shuffled := Shuffled(remaining, draws);
      if |shuffled| > 0 {
        var eliminated := shuffled[0];
        ChosenIsRemaining(cards, opponent, draws);
        ghost var k := IndexWhere(cards, HasWord(eliminated.word));
        assert k < |cards| by {
          var m :| 0 <= m < |cards| && cards[m] == eliminated;
          assert k <= m;
        }
        var i := 0;
        while i < CardCount
          invariant i <= k
        {
          if cards[i].word == eliminated.word {
            cards := cards[i := cards[i].(selected := true)];
            return;
          }
          i := i + 1;
        }
      }
    }
  }
}

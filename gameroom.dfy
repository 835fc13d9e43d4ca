/** The turn and selection rules of the game screen. The controller's state (the board, the
    round, the statistics, the round timer, the action button, the two text fields, the
    game-over outcome and the messages broadcast) is one `Screen` value; each handler is a
    function on it, and the `GameRoomScreen` class performs the same steps in place. */
module GameRoom {
  import opened Common
  import opened Entities
  import opened Cards

  datatype ButtonState = ConfirmButton | EndRoundButton

  datatype ActionEvent = EndRoundEvent | ConfirmEvent

  /** What the screen hands to the transport, in order. */
  datatype Message =
    | CardsMessage(cards: seq<Card>)
    | RoundMessage(round: Round)
    | ActionMessage(event: ActionEvent, uuid: string)

  /** The reason the game-over alert gives. */
  datatype Ending = DefaultWin | DefaultLose | MinigameWin(blueRemaining: nat)

  /** What the screen reads but never writes: the local player, the game mode and the fixed
      texts shown in the clue and number fields. */
  datatype Context = Context(
    me: PlayerData,
    mode: GameMode,
    leaderClue: string,
    defaultNumber: string,
    isTurnClue: string,
    nonTurnClue: string)

  datatype Screen = Screen(
    cards: seq<Card>,
    round: Round,
    stats: Statistics,
    timer: Timer,
    button: ButtonState,
    buttonEnabled: bool,
    leaderIsEditing: bool,
    clueText: string,
    numberText: string,
    ending: Option<Ending>,
    sent: seq<Message>)

  predicate OwnTurn(s: Screen, ctx: Context) {
    s.round.currentTeam == ctx.me.team
  }

  predicate PlayingTeam(t: Team) {
    t == Red || t == Blue
  }

  // ---- Ending a round and the game ----

  /** `didEndRound`: the round passes to the other team and is broadcast, followed by an
      end-round event. On timer expiry in a minigame only the host does this. */
  function EndRoundStep(s: Screen, ctx: Context, fromTimerExpiry: bool): (r: Screen)
    ensures r.cards == s.cards && r.stats == s.stats && r.timer == s.timer && r.ending == s.ending
    ensures r.button == s.button && r.clueText == s.clueText && r.numberText == s.numberText
  {
    if fromTimerExpiry && ctx.mode == MiniGame && !ctx.me.host then s
    else
      var ended := s.round.EndRound(ctx.me.team);
      s.(round := ended, sent := s.sent + [RoundMessage(ended), ActionMessage(EndRoundEvent, ctx.me.uuid)])
  }

  /** `didEndGame`: the round is marked ended and the outcome recorded. */
  function EndGameStep(s: Screen, ending: Ending): (r: Screen)
    ensures r.round.gameEnded && r.ending == Some(ending)
    ensures r.cards == s.cards && r.sent == s.sent && r.stats == s.stats && r.timer == s.timer
    ensures r.round.currentTeam == s.round.currentTeam && r.round.winningTeam == s.round.winningTeam
  {
    s.(round := s.round.(gameEnded := true), ending := Some(ending))
  }

  lemma EndRoundProperties(s: Screen, ctx: Context, fromTimerExpiry: bool)
    ensures fromTimerExpiry && ctx.mode == MiniGame && !ctx.me.host ==>
      EndRoundStep(s, ctx, fromTimerExpiry) == s
    ensures !(fromTimerExpiry && ctx.mode == MiniGame && !ctx.me.host) ==>
      var r := EndRoundStep(s, ctx, fromTimerExpiry);
      r.round.currentTeam == Opponent(ctx.me.team) && !r.round.BothFieldsSet() &&
      r.sent == s.sent + [RoundMessage(r.round), ActionMessage(EndRoundEvent, ctx.me.uuid)] &&
      r.cards == s.cards && r.stats == s.stats && r.ending == s.ending
  {
  }

  // ---- Tapping a card ----

  /** The win checks run on the board after the selection: the assassin or an opponent with
      nothing left makes the opponent win; otherwise a team with nothing left wins itself. */
  function WinCheck(s: Screen, ctx: Context, cardTeam: Team): (r: Screen)
    ensures r.cards == s.cards && r.sent == s.sent && r.timer == s.timer
    ensures r.round.currentTeam == s.round.currentTeam && r.round.clue == s.round.clue &&
      r.round.numberOfWords == s.round.numberOfWords
  {
    var team := ctx.me.team;
    var opponent := Opponent(team);
    if cardTeam == Assassin || CardsRemaining(s.cards, opponent) == 0 then
      EndGameStep(s.(round := s.round.(winningTeam := Some(opponent)),
                     stats := s.stats.RecordWinForTeam(opponent)), DefaultLose)
    else if CardsRemaining(s.cards, team) == 0 then
      var won := s.(round := s.round.(winningTeam := Some(team)));
      if ctx.mode == RegularGame then
        EndGameStep(won.(stats := won.stats.RecordWinForTeam(team)), DefaultWin)
      else
        var n := CardsRemaining(s.cards, Blue);
        EndGameStep(won, MinigameWin(n)).(stats := won.stats.(bestRecord := n))
    else s
  }

  /** The guards of a tap: a guesser (not the leader) of the team whose turn it is, once
      both clue fields are set, on a card not yet selected. */
  predicate TapAllowed(s: Screen, ctx: Context, index: nat)
    requires index < |s.cards|
  {
    !ctx.me.clueGiver && OwnTurn(s, ctx) && s.round.BothFieldsSet() && !s.cards[index].selected
  }

  function SelectCard(cards: seq<Card>, index: nat): (r: seq<Card>)
    requires index < |cards|
    ensures |r| == |cards| && r[index].selected
    ensures r[index].word == cards[index].word && r[index].team == cards[index].team
    ensures forall i :: 0 <= i < |cards| && i != index ==> r[i] == cards[i]
  {
    cards[index := cards[index].(selected := true)]
  }

  /** `collectionView(_:didSelectItemAt:)`. */
  function TapSpec(s: Screen, ctx: Context, index: nat): (r: Screen)
    requires index < |s.cards|
    ensures r.cards == s.cards || r.cards == SelectCard(s.cards, index)
    ensures r.timer == s.timer
  {
    if ctx.me.clueGiver || !OwnTurn(s, ctx) || !s.round.BothFieldsSet() then s
    else if s.cards[index].selected then s
    else
      var cardTeam := s.cards[index].team;
      var cards := SelectCard(s.cards, index);
      var selected := s.(cards := cards, sent := s.sent + [CardsMessage(cards)]);
      var afterRound :=
        if cardTeam == Neutral || cardTeam == Opponent(ctx.me.team) then EndRoundStep(selected, ctx, false)
        else selected;
      WinCheck(afterRound, ctx, cardTeam)
  }

  /** A leader's tap, a tap out of turn, a tap before the clue is confirmed and a tap on a
      selected card change nothing. */
  lemma TapGuards(s: Screen, ctx: Context, index: nat)
    requires index < |s.cards|
    ensures !TapAllowed(s, ctx, index) ==> TapSpec(s, ctx, index) == s
  {
  }

  /** An allowed tap selects the tapped card and no other, and lowers the count of the card's
      own team by one and of no other team. */
  lemma TapSelectsOnlyTapped(s: Screen, ctx: Context, index: nat)
    requires index < |s.cards| && TapAllowed(s, ctx, index)
    ensures TapSpec(s, ctx, index).cards == SelectCard(s.cards, index)
    ensures TapSpec(s, ctx, index).cards[index].selected
    ensures forall i :: 0 <= i < |s.cards| && i != index ==> TapSpec(s, ctx, index).cards[i] == s.cards[i]
    ensures forall t :: (CardsRemaining(TapSpec(s, ctx, index).cards, t) ==
      CardsRemaining(s.cards, t) - (if s.cards[index].team == t then 1 else 0))
  {
    forall t ensures CardsRemaining(SelectCard(s.cards, index), t) ==
      CardsRemaining(s.cards, t) - (if s.cards[index].team == t then 1 else 0)
    {
      RemainingAfterSelect(s.cards, index, t);
    }
  }

  /** A neutral or opponent card ends the round before any win check: the board and then the
      round without a winner are broadcast, and the turn has passed in the final state. */
  lemma TapEndsRoundFirst(s: Screen, ctx: Context, index: nat)
    requires index < |s.cards| && TapAllowed(s, ctx, index)
    requires s.cards[index].team == Neutral || s.cards[index].team == Opponent(ctx.me.team)
    ensures var r := TapSpec(s, ctx, index);
      var ended := s.round.EndRound(ctx.me.team);
      r.sent == s.sent + [CardsMessage(SelectCard(s.cards, index)), RoundMessage(ended),
                          ActionMessage(EndRoundEvent, ctx.me.uuid)] &&
      r.round.currentTeam == Opponent(ctx.me.team) && !r.round.BothFieldsSet()
  {
    var cards := SelectCard(s.cards, index);
    var selected := s.(cards := cards, sent := s.sent + [CardsMessage(cards)]);
    var after := EndRoundStep(selected, ctx, false);
    assert TapSpec(s, ctx, index) == WinCheck(after, ctx, s.cards[index].team);
  }

  /** The assassin, or an opponent left with no card, makes the opponent win; the win is
      recorded for the opponent and the game ends with the losing message. */
  lemma TapOpponentWins(s: Screen, ctx: Context, index: nat)
    requires index < |s.cards| && TapAllowed(s, ctx, index)
    requires s.cards[index].team == Assassin ||
      CardsRemaining(SelectCard(s.cards, index), Opponent(ctx.me.team)) == 0
    ensures var r := TapSpec(s, ctx, index);
      r.round.winningTeam == Some(Opponent(ctx.me.team)) && r.round.gameEnded &&
      r.stats == s.stats.RecordWinForTeam(Opponent(ctx.me.team)) && r.ending == Some(DefaultLose)
  {
  }

  /** Otherwise a team left with no card of its own wins: a regular game records the win, a
      minigame stores blue's remaining count as the best record. */
  lemma TapOwnTeamWins(s: Screen, ctx: Context, index: nat)
    requires index < |s.cards| && TapAllowed(s, ctx, index)
    requires s.cards[index].team != Assassin
    requires CardsRemaining(SelectCard(s.cards, index), Opponent(ctx.me.team)) > 0
    requires CardsRemaining(SelectCard(s.cards, index), ctx.me.team) == 0
    ensures var r := TapSpec(s, ctx, index);
      r.round.winningTeam == Some(ctx.me.team) && r.round.gameEnded &&
      (ctx.mode == RegularGame ==>
        r.stats == s.stats.RecordWinForTeam(ctx.me.team) && r.ending == Some(DefaultWin)) &&
      (ctx.mode == MiniGame ==>
        var n := CardsRemaining(SelectCard(s.cards, index), Blue);
        r.stats == s.stats.(bestRecord := n) && r.ending == Some(MinigameWin(n)))
  {
  }

  /** An own-team card that leaves both teams with cards neither ends the round nor names a
      winner: only the board changes, and it is broadcast. */
  lemma TapContinues(s: Screen, ctx: Context, index: nat)
    requires index < |s.cards| && TapAllowed(s, ctx, index) && PlayingTeam(ctx.me.team)
    requires s.cards[index].team == ctx.me.team
    requires CardsRemaining(SelectCard(s.cards, index), Opponent(ctx.me.team)) > 0
    requires CardsRemaining(SelectCard(s.cards, index), ctx.me.team) > 0
    ensures TapSpec(s, ctx, index) ==
      s.(cards := SelectCard(s.cards, index), sent := s.sent + [CardsMessage(SelectCard(s.cards, index))])
  {
    OpponentOfPlayingTeams();
  }

  /** Finding the team's last card while the opponent still has cards wins the game for the
      team, and the turn stays with it. */
  lemma TapLastOwnCardWins(s: Screen, ctx: Context, index: nat)
    requires index < |s.cards| && TapAllowed(s, ctx, index) && PlayingTeam(ctx.me.team)
    requires s.cards[index].team == ctx.me.team
    requires CardsRemaining(s.cards, ctx.me.team) == 1
    requires CardsRemaining(s.cards, Opponent(ctx.me.team)) > 0
    ensures TapSpec(s, ctx, index).round.winningTeam == Some(ctx.me.team)
    ensures TapSpec(s, ctx, index).round.currentTeam == ctx.me.team
  {
    OpponentOfPlayingTeams();
    RemainingAfterSelect(s.cards, index, ctx.me.team);
    RemainingAfterSelect(s.cards, index, Opponent(ctx.me.team));
  }

  /** Once a tap has ended the round, the same player's next tap is out of turn and changes
      nothing. */
  lemma TapAfterRoundEndIsIgnored(s: Screen, ctx: Context, index: nat, next: nat)
    requires index < |s.cards| && next < |s.cards| && TapAllowed(s, ctx, index) && PlayingTeam(ctx.me.team)
    requires s.cards[index].team == Neutral || s.cards[index].team == Opponent(ctx.me.team)
    ensures TapSpec(TapSpec(s, ctx, index), ctx, next) == TapSpec(s, ctx, index)
  {
    OpponentOfPlayingTeams();
    TapEndsRoundFirst(s, ctx, index);
  }

  // ---- The action button ----

  /** A field holds an entry of the leader's own: it is not empty and not its placeholder. */
  predicate Entered(text: string, placeholder: string) {
    |text| > 0 && text != placeholder
  }

  /** `updateActionButton`. In the Confirm state only the leader on their team's turn sees the
      button change; in the End Round state it is enabled on the team's turn once the clue
      is set. */
  function ActionButtonStep(s: Screen, ctx: Context): (r: Screen)
    ensures r == s.(buttonEnabled := r.buttonEnabled)
  {
    if s.button == ConfirmButton then
      if !ctx.me.clueGiver || !OwnTurn(s, ctx) then s
      else s.(buttonEnabled := Entered(s.clueText, ctx.leaderClue) && Entered(s.numberText, ctx.defaultNumber))
    else
      s.(buttonEnabled := OwnTurn(s, ctx) && s.round.BothFieldsSet())
  }

  /** Confirm is enabled exactly when both texts are non-empty and differ from their
      placeholders; the button is all that changes. */
  lemma ConfirmEnabledIff(s: Screen, ctx: Context)
    requires s.button == ConfirmButton && ctx.me.clueGiver && OwnTurn(s, ctx)
    ensures ActionButtonStep(s, ctx).buttonEnabled <==>
      |s.clueText| > 0 && s.clueText != ctx.leaderClue &&
      |s.numberText| > 0 && s.numberText != ctx.defaultNumber
    ensures ActionButtonStep(s, ctx) == s.(buttonEnabled := ActionButtonStep(s, ctx).buttonEnabled)
  {
  }

  /** `didConfirm`: the texts become the round's clue and number, the button turns into End
      Round, and a confirm event is broadcast. */
  function ConfirmStep(s: Screen, ctx: Context): (r: Screen)
    ensures r.cards == s.cards && r.stats == s.stats && r.timer == s.timer
    ensures r.round.currentTeam == s.round.currentTeam && r.round.BothFieldsSet()
  {
    s.(leaderIsEditing := false,
       button := EndRoundButton,
       round := s.round.(clue := Some(s.clueText), numberOfWords := Some(s.numberText)),
       sent := s.sent + [ActionMessage(ConfirmEvent, ctx.me.uuid)])
  }

  /** After the leader confirms on the team's turn, End Round is enabled, and a teammate who
      guesses may select any unselected card. */
  lemma ConfirmOpensGuessing(s: Screen, ctx: Context, guesser: Context, index: nat)
    requires OwnTurn(s, ctx)
    requires guesser.me.team == ctx.me.team && !guesser.me.clueGiver
    requires index < |s.cards| && !s.cards[index].selected
    ensures ConfirmStep(s, ctx).round.clue == Some(s.clueText)
    ensures ConfirmStep(s, ctx).round.numberOfWords == Some(s.numberText)
    ensures ActionButtonStep(ConfirmStep(s, ctx), ctx).buttonEnabled
    ensures TapSpec(ConfirmStep(s, ctx), guesser, index).cards[index].selected
  {
    var c := ConfirmStep(s, ctx);
    assert TapAllowed(c, guesser, index);
    TapSelectsOnlyTapped(c, guesser, index);
  }

  // ---- The dashboard ----

  /** The part of `updateDashboard` that the rules depend on: on the team's turn and while
      the leader is not editing, the fields show the confirmed clue, or, for the leader, the
      placeholders with the button switched to Confirm. */
  function DashboardStep(s: Screen, ctx: Context): (r: Screen)
    ensures r.round == s.round && r.cards == s.cards && r.sent == s.sent
    ensures r.stats == s.stats && r.timer == s.timer && r.buttonEnabled == s.buttonEnabled
    ensures r.button == s.button || r.button == ConfirmButton
  {
    if OwnTurn(s, ctx) then
      if s.leaderIsEditing then s
      else if s.round.BothFieldsSet() then
        s.(clueText := s.round.clue.value, numberText := s.round.numberOfWords.value)
      else if ctx.me.clueGiver then
        s.(clueText := ctx.leaderClue, numberText := ctx.defaultNumber, button := ConfirmButton)
      else
        s.(clueText := ctx.isTurnClue, numberText := ctx.defaultNumber)
    else
      s.(clueText := ctx.nonTurnClue, numberText := ctx.defaultNumber)
  }

  /** A leader awaiting a clue gets the Confirm button, and it stays disabled until both
      placeholders have been replaced. */
  lemma PlaceholdersCannotBeConfirmed(s: Screen, ctx: Context)
    requires OwnTurn(s, ctx) && ctx.me.clueGiver && !s.leaderIsEditing && !s.round.BothFieldsSet()
    ensures DashboardStep(s, ctx).button == ConfirmButton
    ensures !ActionButtonStep(DashboardStep(s, ctx), ctx).buttonEnabled
  {
  }

  // ---- The round timer ----

  datatype Tick = Tick(timer: Timer, startsCountdown: bool)

  /** `updateTimer`: a disabled timer is left alone; off turn it is stopped; on the team's
      turn a stopped timer is armed, and an armed one starts its countdown in the same tick. */
  function TickTimer(t: Timer, round: Round, team: Team): (r: Tick)
    ensures r.timer.enabled == t.enabled
    ensures t.enabled ==> r.timer.state != WillStart
    ensures r.startsCountdown ==> r.timer.state == Started && t.state != Started
  {
    if !t.enabled then Tick(t, false)
    else
      var state := if round.currentTeam == team then (if t.state == Stopped then WillStart else t.state) else Stopped;
      if state == WillStart then Tick(t.(state := Started), true) else Tick(t.(state := state), false)
  }

  lemma TickProperties(t: Timer, round: Round, team: Team)
    ensures !t.enabled ==> TickTimer(t, round, team) == Tick(t, false)
    ensures t.enabled && round.currentTeam != team ==>
      TickTimer(t, round, team) == Tick(t.(state := Stopped), false)
    ensures t.enabled && round.currentTeam == team ==>
      TickTimer(t, round, team) == Tick(t.(state := Started), t.state != Started)
  {
  }

  /** A second tick in the same situation changes nothing and starts no countdown. */
  lemma TickIdempotent(t: Timer, round: Round, team: Team)
    ensures var once := TickTimer(t, round, team).timer;
      TickTimer(once, round, team) == Tick(once, false)
  {
  }

  // ---- The screen ----

  class GameRoomScreen {
    var collection: CardCollection
    var round: Round
    var stats: Statistics
    var timer: Timer
    var button: ButtonState
    var buttonEnabled: bool
    var leaderIsEditing: bool
    var clueText: string
    var numberText: string
    var ending: Option<Ending>
    var sent: seq<Message>
    const context: Context

    function State(): Screen
      reads this, collection
    {
      Screen(collection.cards, round, stats, timer, button, buttonEnabled, leaderIsEditing,
             clueText, numberText, ending, sent)
    }

    /** The screen opens with the End Round button and nothing sent. */
    constructor (context: Context, collection: CardCollection, round: Round, stats: Statistics, timer: Timer)
      ensures this.context == context && this.collection == collection
      ensures State() == Screen(collection.cards, round, stats, timer, EndRoundButton, false, false,
                                "", "", None, [])
    {
      this.context := context;
      this.collection := collection;
      this.round := round;
      this.stats := stats;
      this.timer := timer;
      button := EndRoundButton;
      buttonEnabled := false;
      leaderIsEditing := false;
      clueText := "";
      numberText := "";
      ending := None;
      sent := [];
    }

    method DidEndRound(fromTimerExpiry: bool)
      modifies this
      ensures State() == EndRoundStep(old(State()), context, fromTimerExpiry)
    {
      if fromTimerExpiry && context.mode == MiniGame && !context.me.host {
        return;
      }
      round := round.EndRound(context.me.team);
      sent := sent + [RoundMessage(round)];
      sent := sent + [ActionMessage(EndRoundEvent, context.me.uuid)];
    }

    method DidEndGame(e: Ending)
      modifies this
      ensures State() == EndGameStep(old(State()), e)
    {
      round := round.(gameEnded := true);
      ending := Some(e);
    }

    method DidSelectItem(index: nat)
      requires index < |collection.cards|
      modifies this, collection
      ensures State() == TapSpec(old(State()), context, index)
    {
      if context.me.clueGiver || round.currentTeam != context.me.team || !round.BothFieldsSet() {
        return;
      }
      var card := collection.cards[index];
      var playerTeam := context.me.team;
      var opponentTeam := Opponent(playerTeam);
      if card.selected {
        return;
      }
      collection.cards := collection.cards[index := card.(selected := true)];
      sent := sent + [CardsMessage(collection.cards)];
      if card.team == Neutral || card.team == opponentTeam {
        DidEndRound(false);
      }
      CheckWin(card.team);
    }

    /** The second half of a tap: the win check on the board as it now is. */
    method CheckWin(cardTeam: Team)
      modifies this
      ensures State() == WinCheck(old(State()), context, cardTeam)
    {
      var playerTeam := context.me.team;
      var opponentTeam := Opponent(playerTeam);
      if cardTeam == Assassin || CardsRemaining(collection.cards, opponentTeam) == 0 {
        round := round.(winningTeam := Some(opponentTeam));
        stats := stats.RecordWinForTeam(opponentTeam);
        DidEndGame(DefaultLose);
      } else if CardsRemaining(collection.cards, playerTeam) == 0 {
        round := round.(winningTeam := Some(playerTeam));
        if context.mode == RegularGame {
          stats := stats.RecordWinForTeam(playerTeam);
          DidEndGame(DefaultWin);
        } else {
          var n := CardsRemaining(collection.cards, Blue);
          DidEndGame(MinigameWin(n));
          stats := stats.(bestRecord := n);
        }
      }
    }

    method UpdateActionButton()
      modifies this
      ensures State() == ActionButtonStep(old(State()), context)
    {
      if button == ConfirmButton {
        if !context.me.clueGiver || round.currentTeam != context.me.team {
          return;
        }
        buttonEnabled := |clueText| > 0 && clueText != context.leaderClue &&
          |numberText| > 0 && numberText != context.defaultNumber;
      } else {
        buttonEnabled := round.currentTeam == context.me.team && round.BothFieldsSet();
      }
    }

    method DidConfirm()
      modifies this
      ensures State() == ConfirmStep(old(State()), context)
    {
      leaderIsEditing := false;
      button := EndRoundButton;
      round := round.(clue := Some(clueText));
      round := round.(numberOfWords := Some(numberText));
      sent := sent + [ActionMessage(ConfirmEvent, context.me.uuid)];
    }

    method UpdateDashboard()
      modifies this
      ensures State() == DashboardStep(old(State()), context)
    {
      if round.currentTeam == context.me.team {
        if leaderIsEditing {
          return;
        }
        if round.BothFieldsSet() {
          clueText := round.clue.value;
          numberText := round.numberOfWords.value;
        } else if context.me.clueGiver {
          clueText := context.leaderClue;
          numberText := context.defaultNumber;
          button := ConfirmButton;
        } else {
          clueText := context.isTurnClue;
          numberText := context.defaultNumber;
        }
      } else {
        clueText := context.nonTurnClue;
        numberText := context.defaultNumber;
      }
    }

    /** `updateTimer`; the answer says whether the countdown is started in this tick. */
    method UpdateTimer() returns (startsCountdown: bool)
      modifies this
      ensures Tick(timer, startsCountdown) == TickTimer(old(timer), round, context.me.team)
      ensures State() == old(State()).(timer := timer)
    {
      startsCountdown := false;
      if !timer.enabled {
        return;
      }
      if round.currentTeam == context.me.team {
        if timer.state == Stopped {
          timer := timer.(state := WillStart);
        }
      } else {
        timer := timer.(state := Stopped);
      }
      if timer.state == WillStart {
        startsCountdown := true;
        timer := timer.(state := Started);
      }
    }

    /** `refreshView`: one tick of the screen's refresh timer. */
    method RefreshView() returns (startsCountdown: bool)
      modifies this
      ensures var dashboard := DashboardStep(old(State()), context);
        var tick := TickTimer(dashboard.timer, dashboard.round, context.me.team);
        State() == ActionButtonStep(dashboard.(timer := tick.timer), context) &&
        startsCountdown == tick.startsCountdown
    {
      UpdateDashboard();
      startsCountdown := UpdateTimer();
      UpdateActionButton();
    }
  }
}

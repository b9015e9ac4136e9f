/**
 * The game state and its main loop (the globals of jogo.py and the event
 * and per-state logic of its main loop): the two hands, the tie pile, whose
 * turn it is, the chosen attribute, the round winner and the phase.
 * Rendering, the wall clock and hit testing are outside the model: a
 * click arrives as the attribute row under the pointer, and each timed
 * step arrives as a "timer elapsed" event.
 */
module Play {
  import opened Optional
  import opened Cards
  import opened Rounds
  import opened Dealing

  /** The values of `game_state`. */
  datatype Phase =
    | Start        // TELA_INICIAL
    | Choosing     // ESCOLHENDO: the player picks an attribute
    | AiThinking   // PENSANDO_IA: the computer picks after a pause
    | ShowingResult  // RESULTADO
    | Animating    // ANIMANDO: the two cards fly to the winner
    | GameOver     // FIM_DE_JOGO
  {
    /** The phases in which a round is being played, with a card in front of each side. */
    predicate InRound()
    {
      this == Choosing || this == AiThinking || this == ShowingResult || this == Animating
    }
  }

  /** The cards in play: the player's hand, the computer's hand and the tie pile. */
  datatype Table = Table(player: seq<Card>, ai: seq<Card>, tie: seq<Card>)

  /** All cards on the table, counted with repetition. */
  function InPlay(t: Table): multiset<Card>
  {
    multiset(t.player) + multiset(t.ai) + multiset(t.tie)
  }

  /**
   * The table after a round with outcome `w`: both front cards leave their
   * hands; the winner appends them, player's card first, followed by the
   * whole tie pile, which is emptied; on a tie they go to the end of the pile.
   */
  function Settled(t: Table, w: Outcome): Table
    requires |t.player| > 0 && |t.ai| > 0
  {
    var played := [t.player[0], t.ai[0]];
    match w
    case Player => Table(t.player[1..] + played + t.tie, t.ai[1..], [])
    case Ai => Table(t.player[1..], t.ai[1..] + played + t.tie, [])
    case Tie => Table(t.player[1..], t.ai[1..], t.tie + played)
  }

  /** Settling a round neither creates nor loses a card. */
  lemma SettledConserves(t: Table, w: Outcome)
    requires |t.player| > 0 && |t.ai| > 0
    ensures InPlay(Settled(t, w)) == InPlay(t)
    ensures |Settled(t, w).player| + |Settled(t, w).ai| + |Settled(t, w).tie| == |t.player| + |t.ai| + |t.tie|
  {
    var played := [t.player[0], t.ai[0]];
    assert t.player == [t.player[0]] + t.player[1..];
    assert t.ai == [t.ai[0]] + t.ai[1..];
    var rest := multiset(t.player[1..]) + multiset(t.ai[1..]) + multiset(t.tie);
    assert InPlay(t) == multiset(played) + rest;
    match w {
      case Player =>
        assert multiset(t.player[1..] + played + t.tie) == multiset(t.player[1..]) + multiset(played) + multiset(t.tie);
      case Ai =>
        assert multiset(t.ai[1..] + played + t.tie) == multiset(t.ai[1..]) + multiset(played) + multiset(t.tie);
      case Tie =>
        assert multiset(t.tie + played) == multiset(t.tie) + multiset(played);
    }
  }

  /** Settling a table that holds the deck's cards leaves a table that holds them. */
  lemma KeepsCards(before: Table, w: Outcome, after: Table, cards: seq<Card>)
    requires |before.player| > 0 && |before.ai| > 0
    requires InPlay(before) == multiset(cards) && |before.tie| % 2 == 0
    requires after == Settled(before, w)
    ensures InPlay(after) == multiset(cards) && |after.tie| % 2 == 0
  {
    SettledConserves(before, w);
  }

  /**
   * How many cards each place holds after a round: the winner takes the two
   * played cards and the tie pile, the loser gives up one card; on a tie
   * each side gives up one card and the pile grows by two.
   */
  lemma SettledSizes(t: Table, w: Outcome)
    requires |t.player| > 0 && |t.ai| > 0
    ensures w == Player ==> |Settled(t, w).player| == |t.player| + 1 + |t.tie| && |Settled(t, w).ai| == |t.ai| - 1
    ensures w == Ai ==> |Settled(t, w).ai| == |t.ai| + 1 + |t.tie| && |Settled(t, w).player| == |t.player| - 1
    ensures w != Tie ==> Settled(t, w).tie == []
    ensures w == Tie ==> |Settled(t, w).player| == |t.player| - 1 && |Settled(t, w).ai| == |t.ai| - 1
    ensures w == Tie ==> |Settled(t, w).tie| == |t.tie| + 2
  {
  }

  /**
   * Two ties and then a win: the winner collects the six cards of the
   * three rounds, this round's two first, then the tied pairs in the
   * order they were played, and the pile is empty again.
   */
  lemma TiesThenWin(t: Table)
    requires |t.player| >= 3 && |t.ai| >= 3 && t.tie == []
    ensures var t3 := Settled(Settled(Settled(t, Tie), Tie), Player);
      t3.player == t.player[3..] + [t.player[2], t.ai[2], t.player[0], t.ai[0], t.player[1], t.ai[1]] &&
      t3.ai == t.ai[3..] && t3.tie == []
  {
    var t1 := Settled(t, Tie);
    var t2 := Settled(t1, Tie);
    assert t1.player[0] == t.player[1] && t1.ai[0] == t.ai[1];
    assert t2.player[0] == t.player[2] && t2.ai[0] == t.ai[2];
    assert t2.player[1..] == t.player[3..];
    assert t2.tie == [t.player[0], t.ai[0], t.player[1], t.ai[1]];
  }

  /** Whose turn it is after a round with outcome `w`: the winner's; on a tie it does not change. */
  function TurnAfter(w: Outcome, playerTurn: bool): (turn: bool)
    ensures w != Tie ==> (turn <==> w == Player)
    ensures w == Tie ==> turn == playerTurn
  {
    match w
    case Player => true
    case Ai => false
    case Tie => playerTurn
  }

  /**
   * The phase after settlement: the game is over when a hand is empty;
   * otherwise the side whose turn it is chooses next.
   */
  function NextPhase(t: Table, playerTurn: bool): (p: Phase)
    ensures p == GameOver <==> |t.player| == 0 || |t.ai| == 0
    ensures p != GameOver ==> (p == Choosing <==> playerTurn) && (p == AiThinking <==> !playerTurn)
  {
    if |t.ai| == 0 || |t.player| == 0 then GameOver
    else if !playerTurn then AiThinking
    else Choosing
  }

  /**
   * The invariant of a game, on values: once a game has started, the table
   * holds exactly the cards of the deck; the tie pile holds whole pairs;
   * during a round each side has a front card; the game is over only when a
   * hand is empty; the phase agrees with whose turn it is; and a shown
   * result is the resolution of the two front cards on the chosen attribute.
   */
  ghost predicate Consistent(t: Table, phase: Phase, playerTurn: bool,
                             chosen: Option<string>, winner: Option<Outcome>, cards: seq<Card>)
  {
    (phase != Start ==> InPlay(t) == multiset(cards)) &&
    |t.tie| % 2 == 0 &&
    (phase.InRound() ==> |t.player| > 0 && |t.ai| > 0) &&
    (phase == GameOver ==> |t.player| == 0 || |t.ai| == 0) &&
    (phase == Choosing ==> playerTurn) &&
    (phase == AiThinking ==> !playerTurn) &&
    ((phase == ShowingResult || phase == Animating) ==>
      chosen.Some? && winner == Some(Resolve(t.player[0], t.ai[0], chosen.value)))
  }

  /**
   * Dealing a shuffled copy of a playable deck of at least two cards starts
   * a consistent game: each side holds half of the deck (the player the
   * larger half) and the player chooses first.
   */
  lemma DealStarts(cards: seq<Card>, shuffled: seq<Card>, chosen: Option<string>, winner: Option<Outcome>)
    requires |cards| >= 2 && AllPlayable(cards)
    requires multiset(shuffled) == multiset(cards)
    ensures |shuffled| >= 2 && AllPlayable(shuffled)
    ensures |HandOf(shuffled, 2, 0)| == (|shuffled| + 1) / 2 && |HandOf(shuffled, 2, 1)| == |shuffled| / 2
    ensures Consistent(Table(HandOf(shuffled, 2, 0), HandOf(shuffled, 2, 1), []), Choosing, true, chosen, winner, shuffled)
  {
    TwoHandSizes(shuffled);
    TwoHandsPartition(shuffled);
    assert |shuffled| == |multiset(shuffled)| == |multiset(cards)| == |cards|;
    AllPlayableMembers(cards);
    AllPlayableMembers(shuffled);
    forall c | c in shuffled
      ensures Playable(c)
    {
      assert c in multiset(cards);
    }
  }

  /** Every card on a table that holds a playable deck can be played; in particular the computer's front card. */
  lemma FrontPlayable(t: Table, cards: seq<Card>)
    requires InPlay(t) == multiset(cards) && AllPlayable(cards) && |t.ai| > 0
    ensures Playable(t.ai[0])
  {
    assert t.ai[0] in InPlay(t);
    AllPlayableMembers(cards);
  }

  /**
   * Resolving the round on an attribute, by the player while choosing or by
   * the computer while thinking, shows a consistent result: the primed
   * arguments are the new chosen attribute, winner and phase.
   */
  lemma ResolveStep(t: Table, phase: Phase, turn: bool, chosen: Option<string>, winner: Option<Outcome>,
                    cards: seq<Card>, attr: string, shown: Phase, chosen': Option<string>, winner': Option<Outcome>)
    requires Consistent(t, phase, turn, chosen, winner, cards) && (phase == Choosing || phase == AiThinking)
    requires shown == ShowingResult && chosen' == Some(attr) && winner' == Some(Resolve(t.player[0], t.ai[0], attr))
    ensures Consistent(t, shown, turn, chosen', winner', cards)
  {
  }

  /**
   * Settling a consistent animation leaves a consistent game: the table is
   * the settled one, the turn goes to the round's winner and the phase is
   * the one that follows from the hands and the turn.
   */
  lemma SettleStep(t: Table, w: Outcome, turn: bool, chosen: Option<string>, cards: seq<Card>,
                   after: Table, phase: Phase, turnAfter: bool, winner: Option<Outcome>)
    requires Consistent(t, Animating, turn, chosen, Some(w), cards)
    requires |t.player| > 0 && |t.ai| > 0 && after == Settled(t, w)
    requires turnAfter == TurnAfter(w, turn) && phase == NextPhase(after, turnAfter) && winner == Some(w)
    ensures Consistent(after, phase, turnAfter, chosen, winner, cards)
  {
    KeepsCards(t, w, Settled(t, w), cards);
  }

  /**
   * The winner the end screen announces, as jogo.py decides it: the player
   * when their hand still holds cards, the computer otherwise.
   */
  function AnnouncedAsWritten(t: Table): (o: Outcome)
    ensures o != Tie
    ensures o == Player <==> |t.player| > 0
  {
    if |t.player| > 0 then Player else Ai
  }

  /**
   * A tied last round, with one card left on each side, empties both hands
   * at once and ends the game, and the computer is announced as the winner
   * although it holds no more cards than the player.
   */
  lemma LastTieAnnouncesAi(p: Card, a: Card, attr: string, turn: bool)
    requires Resolve(p, a, attr) == Tie
    ensures var t := Settled(Table([p], [a], []), Resolve(p, a, attr));
      |t.player| == 0 && |t.ai| == 0 && t.tie == [p, a] &&
      NextPhase(t, TurnAfter(Tie, turn)) == GameOver && AnnouncedAsWritten(t) == Ai
  {
  }

  /**
   * The end-screen result as evidently intended: the side that still holds
   * cards wins, and when both hands ran out together the game is drawn.
   */
  function Announced(t: Table): (o: Outcome)
    requires |t.player| == 0 || |t.ai| == 0
    ensures o == Player <==> |t.player| > 0
    ensures o == Ai <==> |t.ai| > 0
    ensures o == Tie <==> |t.player| == 0 && |t.ai| == 0
  {
    if |t.player| > 0 then Player
    else if |t.ai| > 0 then Ai
    else Tie
  }

  /**
   * At the end of a game the announced winner holds every card that is not
   * on the tie pile, and after a draw all cards are on the tie pile.
   */
  lemma AnnouncedHoldsCards(t: Table, cards: seq<Card>)
    requires |t.player| == 0 || |t.ai| == 0
    requires InPlay(t) == multiset(cards)
    ensures Announced(t) == Player ==> multiset(t.player) + multiset(t.tie) == multiset(cards)
    ensures Announced(t) == Ai ==> multiset(t.ai) + multiset(t.tie) == multiset(cards)
    ensures Announced(t) == Tie ==> multiset(t.tie) == multiset(cards)
  {
    if |t.player| == 0 { assert t.player == []; }
    if |t.ai| == 0 { assert t.ai == []; }
  }

  /**
   * The game: the deck object and the global state of jogo.py.
   * `tempo_estado` and `anim_start_time` are not modelled (see TimerElapsed).
   */
  class Game {
    const deck: Deck            // `baralho_paises`
    var playerHand: seq<Card>   // `mao_jogador`, front card first
    var aiHand: seq<Card>       // `mao_ia`
    var tiePile: seq<Card>      // `pilha_empate`
    var playerTurn: bool        // `turno_do_jogador`
    var phase: Phase            // `game_state`
    var chosen: Option<string>  // `atributo_escolhido`
    var roundWinner: Option<Outcome>  // `vencedor_rodada`

    /** The cards in play. */
    function OnTable(): Table
      reads this
    {
      Table(playerHand, aiHand, tiePile)
    }

    /** The invariant of the game: a playable deck and a consistent state. */
    ghost predicate Valid()
      reads this, deck
    {
      DeckOk() && Consistent(OnTable(), phase, playerTurn, chosen, roundWinner, deck.cards)
    }

    /** The deck has two cards to deal and every card of it can be played. */
    ghost predicate DeckOk()
      reads deck
    {
      |deck.cards| >= 2 && AllPlayable(deck.cards)
    }

    /**
     * The corrected end-screen result: who holds the cards once a hand has
     * run out, and a draw when both have. The screen as written differs only
     * when both hands are empty, where it announces the computer.
     */
    function FinalResult(): (o: Outcome)
      requires Valid() && phase == GameOver
      reads this, deck
      ensures o != Tie ==> multiset(if o == Player then playerHand else aiHand) + multiset(tiePile) == multiset(deck.cards)
      ensures o == Tie ==> playerHand == [] && aiHand == [] && multiset(tiePile) == multiset(deck.cards)
      ensures o == Player <==> playerHand != []
      ensures o == Ai <==> aiHand != []
      ensures o == Tie <==> playerHand == [] && aiHand == []
      ensures playerHand != [] || aiHand != [] ==> o == AnnouncedAsWritten(OnTable())
    {
      AnnouncedHoldsCards(OnTable(), deck.cards);
      Announced(OnTable())
    }

    /** The start screen, with the deck loaded from the card file. */
    constructor (cards: seq<Card>)
      requires |cards| >= 2
      requires AllPlayable(cards)
      ensures Valid() && fresh(deck)
      ensures deck.cards == cards && phase == Start
      ensures |playerHand| == 0 && |aiHand| == 0 && tiePile == []
      ensures playerTurn && chosen == None && roundWinner == None
    {
      deck := new Deck(cards);
      playerHand, aiHand, tiePile := [], [], [];
      phase := Start;
      playerTurn := true;
      chosen, roundWinner := None, None;
    }

    /** The state `resetar_jogo` leaves behind, after dealing the deck in the order `shuffled`. */
    ghost predicate NewGame(shuffled: seq<Card>)
      reads this, deck
    {
      deck.cards == shuffled &&
      playerHand == HandOf(shuffled, 2, 0) && aiHand == HandOf(shuffled, 2, 1) &&
      tiePile == [] && phase == Choosing && playerTurn
    }

    /**
     * A game with every card in play has as many cards on the table as the deck holds.
     */
    lemma CardCount()
      requires Valid() && phase != Start
      ensures |playerHand| + |aiHand| + |tiePile| == |deck.cards|
    {
      assert |InPlay(OnTable())| == |multiset(deck.cards)|;
    }

    /**
     * `resetar_jogo`: shuffle and deal the deck to two hands, empty the tie
     * pile, and start choosing with the player to move. The chosen attribute
     * and the last round's winner are left as they were.
     */
    method Reset(shuffled: seq<Card>)
      requires DeckOk()
      requires multiset(shuffled) == multiset(deck.cards)
      modifies this, deck
      ensures Valid() && NewGame(shuffled)
      ensures |playerHand| == (|deck.cards| + 1) / 2 && |aiHand| == |deck.cards| / 2
      ensures chosen == old(chosen) && roundWinner == old(roundWinner)
    {
      DealStarts(deck.cards, shuffled, chosen, roundWinner);
      var hands := deck.Deal(2, shuffled);
      assert hands[0] == HandOf(shuffled, 2, 0) && hands[1] == HandOf(shuffled, 2, 1);
      Begin(hands[0], hands[1]);
    }

    /** The assignments that end `resetar_jogo`: the dealt hands, an empty tie pile, the player to choose. */
    method Begin(player: seq<Card>, ai: seq<Card>)
      requires DeckOk()
      requires Consistent(Table(player, ai, []), Choosing, true, chosen, roundWinner, deck.cards)
      modifies this
      ensures Valid()
      ensures playerHand == player && aiHand == ai && tiePile == [] && phase == Choosing && playerTurn
      ensures chosen == old(chosen) && roundWinner == old(roundWinner)
    {
      playerHand, aiHand, tiePile, phase, playerTurn := player, ai, [], Choosing, true;
    }

    /**
     * A mouse click. On the start or end screen it starts a new game; while
     * the player is choosing, a click on an attribute row of the drawn player
     * card (`hit`, the name of the row under the pointer) chooses that
     * attribute, resolves the round at once and shows the result. Any other
     * click changes nothing.
     */
    method Click(hit: Option<string>, shuffled: seq<Card>)
      requires Valid()
      requires multiset(shuffled) == multiset(deck.cards)
      modifies this, deck
      ensures Valid()
      ensures (old(phase) == Start || old(phase) == GameOver) ==>
        NewGame(shuffled) && chosen == old(chosen) && roundWinner == old(roundWinner)
      ensures old(phase) == Choosing && hit.Some? ==>
        phase == ShowingResult && chosen == hit &&
        roundWinner == Some(Resolve(playerHand[0], aiHand[0], hit.value)) &&
        OnTable() == old(OnTable()) && playerTurn == old(playerTurn) && unchanged(deck)
      ensures old(phase).InRound() && (old(phase) != Choosing || hit.None?) ==> unchanged(this) && unchanged(deck)
    {
      if phase == Start || phase == GameOver {
        Reset(shuffled);
      } else if phase == Choosing && playerTurn {
        if hit.Some? {
          chosen := hit;
          roundWinner := Some(Resolve(playerHand[0], aiHand[0], hit.value));
          phase := ShowingResult;
          ResolveStep(OnTable(), Choosing, playerTurn, old(chosen), old(roundWinner), deck.cards,
                      hit.value, phase, chosen, roundWinner);
        }
      }
    }

    /**
     * The card movements of settlement: take both front cards, give them
     * and the tie pile to the winner, or put them on the tie pile on a tie,
     * and give the turn to the winner.
     */
    method TakeCards()
      requires |playerHand| > 0 && |aiHand| > 0 && roundWinner.Some?
      modifies this
      ensures OnTable() == Settled(old(OnTable()), old(roundWinner).value)
      ensures playerTurn == TurnAfter(old(roundWinner).value, old(playerTurn))
      ensures phase == old(phase) && chosen == old(chosen) && roundWinner == old(roundWinner)
    {
      var playerCard, aiCard := playerHand[0], aiHand[0];
      playerHand, aiHand := playerHand[1..], aiHand[1..];
      if roundWinner == Some(Player) {
        playerHand := playerHand + [playerCard, aiCard] + tiePile;
        playerTurn := true;
      } else if roundWinner == Some(Ai) {
        aiHand := aiHand + [playerCard, aiCard] + tiePile;
        playerTurn := false;
      } else {
        tiePile := tiePile + [playerCard, aiCard];
      }
      if roundWinner != Some(Tie) {
        tiePile := [];
      }
    }

    /**
     * The end of the round's animation: settle the cards, then end the game
     * if a hand is empty, or let the round's winner choose next.
     */
    method Settle()
      requires Valid() && phase == Animating
      modifies this
      ensures Valid()
      ensures OnTable() == Settled(old(OnTable()), old(roundWinner).value)
      ensures playerTurn == TurnAfter(old(roundWinner).value, old(playerTurn))
      ensures phase == NextPhase(OnTable(), playerTurn)
      ensures chosen == old(chosen) && roundWinner == old(roundWinner)
    {
      ghost var before, turn := OnTable(), playerTurn;
      TakeCards();
      if |aiHand| == 0 || |playerHand| == 0 {
        phase := GameOver;
      } else {
        phase := if !playerTurn then AiThinking else Choosing;
      }
      SettleStep(before, roundWinner.value, turn, chosen, deck.cards, OnTable(), phase, playerTurn, roundWinner);
    }

    /**
     * The computer's move, once its pause is over: it chooses the best
     * attribute of its front card, and the round is resolved and shown.
     */
    method AiChooses()
      requires Valid() && phase == AiThinking
      modifies this
      ensures Valid()
      ensures phase == ShowingResult && OnTable() == old(OnTable()) && playerTurn == old(playerTurn)
      ensures Playable(aiHand[0]) && chosen == Some(AiChoice(aiHand[0]))
      ensures roundWinner == Some(Resolve(playerHand[0], aiHand[0], chosen.value))
    {
      FrontPlayable(OnTable(), deck.cards);
      var attr := AiChoice(aiHand[0]);
      chosen := Some(attr);
      roundWinner := Some(Resolve(playerHand[0], aiHand[0], attr));
      phase := ShowingResult;
      ResolveStep(OnTable(), AiThinking, playerTurn, old(chosen), old(roundWinner), deck.cards,
                  attr, phase, chosen, roundWinner);
    }

    /**
     * A timed step of the main loop, when its pause is over: the computer
     * chooses its attribute and the round is resolved; the result gives way
     * to the animation; the animation ends in settlement. In the other
     * phases the clock changes nothing.
     */
    method TimerElapsed()
      requires Valid()
      modifies this
      ensures Valid()
      ensures old(phase) == AiThinking ==>
        phase == ShowingResult && OnTable() == old(OnTable()) && playerTurn == old(playerTurn) &&
        Playable(aiHand[0]) && chosen == Some(AiChoice(aiHand[0])) &&
        roundWinner == Some(Resolve(playerHand[0], aiHand[0], chosen.value))
      ensures old(phase) == ShowingResult ==>
        phase == Animating && OnTable() == old(OnTable()) && playerTurn == old(playerTurn) &&
        chosen == old(chosen) && roundWinner == old(roundWinner)
      ensures old(phase) == Animating ==>
        OnTable() == Settled(old(OnTable()), old(roundWinner).value) &&
        playerTurn == TurnAfter(old(roundWinner).value, old(playerTurn)) &&
        phase == NextPhase(OnTable(), playerTurn) &&
        chosen == old(chosen) && roundWinner == old(roundWinner)
      ensures (old(phase) == Start || old(phase) == Choosing || old(phase) == GameOver) ==> unchanged(this)
    {
      if phase == AiThinking {
        AiChooses();
      } else if phase == ShowingResult {
        phase := Animating;
      } else if phase == Animating {
        Settle();
      }
    }
  }
}

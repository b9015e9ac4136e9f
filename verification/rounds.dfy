/**
 * Deciding a round (`resolver_rodada`) and the computer's choice of
 * attribute (`ia_escolhe_atributo`).
 */
module Rounds {
  import opened Cards

  /** The round outcomes 'JOGADOR', 'IA' and 'EMPATE'. */
  datatype Outcome = Player | Ai | Tie

  /** The same outcome seen with the two sides exchanged. */
  function Flip(o: Outcome): Outcome
  {
    match o
    case Player => Ai
    case Ai => Player
    case Tie => Tie
  }

  /**
   * `resolver_rodada`: the four trump rules, tried in order, and then the
   * comparison of the chosen attribute, a missing attribute counting as 0.
   */
  function Resolve(p: Card, a: Card, attr: string): (r: Outcome)
    // a super trump decides the round, and loses only to an anti-trump
    ensures p.superTrump ==> r == (if a.antiTrump then Ai else Player)
    ensures a.superTrump && !p.superTrump ==> r == (if p.antiTrump then Player else Ai)
    // without a super trump only the chosen attribute's two values matter
    ensures !p.superTrump && !a.superTrump ==>
      (r == Player <==> Value(p, attr) > Value(a, attr)) &&
      (r == Ai <==> Value(a, attr) > Value(p, attr)) &&
      (r == Tie <==> Value(p, attr) == Value(a, attr))
  {
    if p.superTrump && !a.antiTrump then Player
    else if a.superTrump && !p.antiTrump then Ai
    else if p.superTrump && a.antiTrump then Ai
    else if a.superTrump && p.antiTrump then Player
    else
      var vp := Value(p, attr);
      var va := Value(a, attr);
      if vp > va then Player
      else if va > vp then Ai
      else Tie
  }

  /** When a super trump is on the table, the chosen attribute is irrelevant. */
  lemma TrumpIgnoresAttribute(p: Card, a: Card, x: string, y: string)
    requires p.superTrump || a.superTrump
    ensures Resolve(p, a, x) == Resolve(p, a, y)
  {
  }

  /**
   * Exchanging the two cards exchanges the winner, unless both cards are
   * super trumps with the same anti-trump flag: the rules then decide by
   * seat alone (see BothSuperTrumps). A super trump that is also anti-trump
   * beats a plain super trump from either seat.
   */
  lemma ResolveSwap(p: Card, a: Card, attr: string)
    requires !(p.superTrump && a.superTrump && p.antiTrump == a.antiTrump)
    ensures Resolve(a, p, attr) == Flip(Resolve(p, a, attr))
  {
  }

  /** Two super trumps with equal anti-trump flags: whoever is listed first wins or loses regardless of the cards. */
  lemma BothSuperTrumps(p: Card, a: Card, attr: string)
    requires p.superTrump && a.superTrump && p.antiTrump == a.antiTrump
    ensures Resolve(p, a, attr) == (if a.antiTrump then Ai else Player)
    ensures Resolve(a, p, attr) == Resolve(p, a, attr)
  {
  }

  /**
   * The index `max(d, key=d.get)` picks: Python's `max` scans the entries
   * in order and replaces its candidate only by a strictly greater value,
   * so it returns the first entry holding the largest value.
   */
  function BestIndex(attrs: seq<Attribute>): (r: nat)
    requires attrs != []
    ensures r < |attrs|
    ensures forall j :: 0 <= j < |attrs| ==> attrs[j].1 <= attrs[r].1
    ensures forall j :: 0 <= j < r ==> attrs[j].1 < attrs[r].1
    decreases |attrs|
  {
    if |attrs| == 1 then 0
    else
      var best := BestIndex(attrs[..|attrs| - 1]);
      if attrs[|attrs| - 1].1 > attrs[best].1 then |attrs| - 1 else best
  }

  /**
   * `ia_escolhe_atributo`: the computer names one of its card's attributes
   * whose value is at least every other value, the earliest such in the
   * card's attribute order. It never looks at the player's card.
   */
  function AiChoice(c: Card): (name: string)
    requires Playable(c)
    ensures name in Keys(c.attributes)
    ensures forall k :: k in Keys(c.attributes) ==> Value(c, k) <= Value(c, name)
    ensures forall i, j :: 0 <= i < j < |c.attributes| && c.attributes[j].0 == name ==>
      c.attributes[i].1 < c.attributes[j].1
  {
    var r := BestIndex(c.attributes);
    BestIsMaximal(c, r);
    c.attributes[r].0
  }

  /** The dictionary facts behind `AiChoice`: its entry's value is the largest one looked up. */
  lemma BestIsMaximal(c: Card, r: nat)
    requires Playable(c)
    requires r == BestIndex(c.attributes)
    ensures Value(c, c.attributes[r].0) == c.attributes[r].1
    ensures forall k :: k in Keys(c.attributes) ==> Value(c, k) <= c.attributes[r].1
  {
    LookupAt(c.attributes, r);
    forall k | k in Keys(c.attributes)
      ensures Value(c, k) <= c.attributes[r].1
    {
      ValueOfKey(c, k);
    }
  }
}

/**
 * The cards of the deck (class `Carta` in jogo.py). A card is an immutable
 * record: its name, its attributes as an ordered dictionary from attribute
 * name to integer value, and the two trump flags. The flag image and its
 * download are not part of this model.
 */
module Cards {

  /** One entry of a card's attribute dictionary: (name, value). */
  type Attribute = (string, int)

  datatype Card = Card(
    name: string,
    attributes: seq<Attribute>,  // dictionary entries in insertion order
    superTrump: bool,            // `super_trunfo`, False when absent
    antiTrump: bool              // `anti_trunfo`, False when absent
  )

  /** The keys of an attribute dictionary. */
  function Keys(attrs: seq<Attribute>): set<string>
  {
    set a | a in attrs :: a.0
  }

  /** A Python dictionary never holds the same key twice. */
  predicate DistinctKeys(attrs: seq<Attribute>)
  {
    forall i, j :: 0 <= i < j < |attrs| ==> attrs[i].0 != attrs[j].0
  }

  /**
   * What the game needs of every card it deals: a well-formed dictionary,
   * and at least one attribute, since the computer's choice takes the
   * maximum over the attributes and `max` of an empty dictionary raises.
   */
  predicate Playable(c: Card)
  {
    DistinctKeys(c.attributes) && c.attributes != []
  }

  /** Every card of `cards` is playable. */
  predicate AllPlayable(cards: seq<Card>)
  {
    cards == [] || (Playable(cards[0]) && AllPlayable(cards[1..]))
  }

  /** `AllPlayable` says of a sequence exactly that each of its members is playable. */
  lemma {:induction false} AllPlayableMembers(cards: seq<Card>)
    ensures AllPlayable(cards) <==> forall c | c in cards :: Playable(c)
  {
    if cards != [] {
      AllPlayableMembers(cards[1..]);
      assert forall c | c in cards :: c == cards[0] || c in cards[1..];
    }
  }

  /**
   * `dict.get(key, 0)`: the value stored under `key`, or 0 when the key is
   * missing. The result is either that default or an entry of the dictionary.
   */
  function Lookup(attrs: seq<Attribute>, key: string): (v: int)
    ensures key !in Keys(attrs) ==> v == 0
    ensures v == 0 || (key, v) in attrs
  {
    if attrs == [] then 0
    else if attrs[0].0 == key then attrs[0].1
    else Lookup(attrs[1..], key)
  }

  /** `Carta.obter_valor_atributo`: a missing attribute reads as 0. */
  function Value(c: Card, attr: string): (v: int)
    ensures attr !in Keys(c.attributes) ==> v == 0
    ensures v == 0 || (attr, v) in c.attributes
  {
    Lookup(c.attributes, attr)
  }

  /** In a dictionary with distinct keys, looking up an entry's key gives that entry's value. */
  lemma {:induction false} LookupAt(attrs: seq<Attribute>, i: nat)
    requires DistinctKeys(attrs)
    requires i < |attrs|
    ensures Lookup(attrs, attrs[i].0) == attrs[i].1
  {
    if i > 0 {
      assert attrs[0].0 != attrs[i].0;
      assert attrs[1..][i - 1] == attrs[i];
      LookupAt(attrs[1..], i - 1);
    }
  }

  /** Every key present is looked up at one of its entries: with distinct keys, at its only one. */
  lemma ValueOfKey(c: Card, attr: string)
    requires DistinctKeys(c.attributes)
    requires attr in Keys(c.attributes)
    ensures exists i :: 0 <= i < |c.attributes| && c.attributes[i].0 == attr && Value(c, attr) == c.attributes[i].1
  {
    var a :| a in c.attributes && a.0 == attr;
    var i :| 0 <= i < |c.attributes| && c.attributes[i] == a;
    LookupAt(c.attributes, i);
  }
}

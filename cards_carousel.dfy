/** The card carousel: which card is in front, how the others stack, and the new-card form. */
module CardsCarousel {
  import opened Optional
  import opened Seqs
  import opened Types

  /** A JavaScript string that is truthy: present and not empty. */
  predicate Truthy(s: Option<string>) {
    s.Some? && s.value != ""
  }

  /** Some card of `cards` carries `id`. */
  predicate HasCard(cards: seq<Card>, id: string) {
    exists c :: c in cards && c.id == id
  }

  predicate UniqueCardIds(cards: seq<Card>) {
    forall i, j :: 0 <= i < j < |cards| ==> cards[i].id != cards[j].id
  }

  /**
   * The card the effect selects: the card of the first listed transaction when
   * that names an existing card, otherwise the last card.
   */
  function InitialSelection(cards: seq<Card>, transactions: seq<Transaction>): (id: string)
    requires cards != []
    ensures HasCard(cards, id)
  {
    if transactions != [] && Truthy(transactions[0].cardId) && HasCard(cards, transactions[0].cardId.value) then
      transactions[0].cardId.value
    else
      assert cards[|cards| - 1] in cards;
      cards[|cards| - 1].id
  }

  /** The first transaction's card wins when it exists. */
  lemma FirstTransactionCardWins(cards: seq<Card>, transactions: seq<Transaction>)
    requires cards != [] && transactions != []
    requires Truthy(transactions[0].cardId) && HasCard(cards, transactions[0].cardId.value)
    ensures InitialSelection(cards, transactions) == transactions[0].cardId.value
  {
  }

  /** Otherwise the last card is chosen. */
  lemma LastCardFallback(cards: seq<Card>, transactions: seq<Transaction>)
    requires cards != []
    requires transactions == [] || !Truthy(transactions[0].cardId) || !HasCard(cards, transactions[0].cardId.value)
    ensures InitialSelection(cards, transactions) == cards[|cards| - 1].id
  {
  }

  /** The default of the colour picker. */
  const DefaultColor: string := "bg-gradient-to-br from-zinc-800 to-zinc-950"

  /** The argument `handleAddCard` passes to `addCard`. */
  datatype CardDraft = CardDraft(name: string, balance: real, kind: CardType, color: string, last4: string)

  /** The component's state: the active card and the new-card form. */
  class Carousel {
    var activeCardId: Option<string>
    var isAdding: bool
    var name: string
    var balance: string
    var kind: CardType
    var color: string

    constructor()
      ensures activeCardId == None && !isAdding
      ensures name == "" && balance == "" && kind == Debit && color == DefaultColor
    {
      activeCardId := None;
      isAdding := false;
      name := "";
      balance := "";
      kind := Debit;
      color := DefaultColor;
    }

    /**
     * The initial-selection effect: only when not loading, with cards, and no
     * truthy active id, it selects `InitialSelection`; otherwise nothing changes.
     */
    method SelectInitialCard(isLoading: bool, cards: seq<Card>, transactions: seq<Transaction>)
      modifies `activeCardId
      ensures !isLoading && cards != [] && !Truthy(old(activeCardId)) ==>
                activeCardId == Some(InitialSelection(cards, transactions))
      ensures isLoading || cards == [] || Truthy(old(activeCardId)) ==> activeCardId == old(activeCardId)
      ensures activeCardId.Some? && activeCardId != old(activeCardId) ==> HasCard(cards, activeCardId.value)
    {
      if !isLoading && |cards| > 0 && !Truthy(activeCardId) {
        if |transactions| > 0 && Truthy(transactions[0].cardId) {
          var lastTx := transactions[0];
          var cardExists := Find(cards, (c: Card) => c.id == lastTx.cardId.value);
          if cardExists.Some? {
            activeCardId := lastTx.cardId;
            return;
          }
        }
        var lastCard := cards[|cards| - 1];
        activeCardId := Some(lastCard.id);
      }
    }

    /**
     * `handleAddCard`: the draft built from the form, with `balanceNumber` the
     * value of `Number(balance)` and `random` the value of `Math.random()`. This
     * is the run in which `addCard` resolves: the form is then closed and
     * cleared, except for the colour.
     */
    method HandleAddCard(balanceNumber: real, random: real) returns (draft: CardDraft)
      requires 0.0 <= random < 1.0
      modifies `isAdding, `name, `balance, `kind
      ensures draft == CardDraft(old(name), balanceNumber, old(kind), old(color), Last4(random))
      ensures !isAdding && name == "" && balance == "" && kind == Debit
    {
      draft := CardDraft(name, balanceNumber, kind, color, Last4(random));
      isAdding := false;
      name := "";
      balance := "";
      kind := Debit;
    }
  }

  /** `cards.find(c => c.id === activeCardId) || cards[0]`. */
  function ActiveCard(cards: seq<Card>, activeCardId: Option<string>): (r: Option<Card>)
    ensures r.None? <==> cards == []
    ensures r.Some? ==> r.value in cards
    ensures activeCardId.Some? && HasCard(cards, activeCardId.value) ==> r.Some? && r.value.id == activeCardId.value
    ensures !(activeCardId.Some? && HasCard(cards, activeCardId.value)) && cards != [] ==> r == Some(cards[0])
  {
    var found := if activeCardId.Some? then Find(cards, (c: Card) => c.id == activeCardId.value) else None;
    if found.Some? then found
    else if cards == [] then None
    else Some(cards[0])
  }

  /** Once the effect has run, the card shown in front is the selected one. */
  lemma SelectionIsShown(cards: seq<Card>, transactions: seq<Transaction>)
    requires cards != []
    ensures ActiveCard(cards, Some(InitialSelection(cards, transactions))).value.id == InitialSelection(cards, transactions)
  {
  }

  /**
   * `findIndex` of `card` among the cards other than the active one: -1 exactly
   * when no inactive card carries the card's id, otherwise a position below
   * the number of cards.
   */
  function StackIndex(cards: seq<Card>, activeId: string, card: Card): (r: int)
    ensures -1 <= r < |cards|
    ensures r == -1 <==> forall c :: c in cards && c.id != activeId ==> c.id != card.id
  {
    var inactive := Filter(cards, (c: Card) => c.id != activeId);
    var k := FindIndex(inactive, (c: Card) => c.id == card.id);
    assert k >= 0 ==> inactive[k] in inactive;
    assert k == -1 ==> forall c :: c in inactive ==> c.id != card.id;
    k
  }

  /** The z-index of the card in front: the `z-50` class. */
  const ActiveZIndex: int := 50

  /**
   * `zIndex: 40 - stackIndex`: a stacked card is drawn behind the card in
   * front; `StackOrder` states that deeper cards are drawn further back.
   */
  function ZIndex(stackIndex: int): (z: int)
    ensures stackIndex >= 0 ==> z < ActiveZIndex
  {
    40 - stackIndex
  }

  /** The active card is not in the stack. */
  lemma ActiveCardNotStacked(cards: seq<Card>, activeId: string, card: Card)
    requires card.id == activeId
    ensures StackIndex(cards, activeId, card) == -1
  {
    var inactive := Filter(cards, (c: Card) => c.id != activeId);
    forall j | 0 <= j < |inactive| ensures inactive[j].id != card.id {
      assert inactive[j] in inactive;
    }
  }

  /** An inactive card's stack index is the number of inactive cards listed before it. */
  lemma StackIndexIsRank(cards: seq<Card>, activeId: string, k: nat)
    requires UniqueCardIds(cards) && k < |cards| && cards[k].id != activeId
    ensures StackIndex(cards, activeId, cards[k]) == |Filter(cards[..k], (c: Card) => c.id != activeId)|
  {
    var p := (c: Card) => c.id != activeId;
    var q := (c: Card) => c.id == cards[k].id;
    var before := Filter(cards[..k], p);
    FilterSplitAt(cards, k, p);
    forall j | 0 <= j < |before| ensures !q(before[j]) {
      assert before[j] in cards[..k];
      var i :| 0 <= i < k && cards[i] == before[j];
    }
    FindIndexAfterPrefix(before, cards[k], Filter(cards[k + 1..], p), q);
  }

  lemma FilterLengthAppend(a: seq<Card>, b: seq<Card>, p: Card -> bool)
    ensures |Filter(a + b, p)| == |Filter(a, p)| + |Filter(b, p)|
  {
    FilterAppend(a, b, p);
  }

  /** A card that passes adds one to the count of passing cards before any later position. */
  lemma RankIncreases(cards: seq<Card>, p: Card -> bool, i: nat, j: nat)
    requires i < j <= |cards| && p(cards[i])
    ensures |Filter(cards[..i], p)| < |Filter(cards[..j], p)|
  {
    assert cards[..j] == (cards[..i] + [cards[i]]) + cards[i + 1..j];
    FilterLengthAppend(cards[..i] + [cards[i]], cards[i + 1..j], p);
    FilterLengthAppend(cards[..i], [cards[i]], p);
    assert Filter([cards[i]], p) == [cards[i]];
  }

  /**
   * Inactive cards get stack indices in list order, each below the number of
   * inactive cards, so they are distinct, and their z-index falls as they go back.
   */
  lemma StackOrder(cards: seq<Card>, activeId: string, i: nat, j: nat)
    requires UniqueCardIds(cards) && HasCard(cards, activeId)
    requires i < j < |cards| && cards[i].id != activeId && cards[j].id != activeId
    ensures 0 <= StackIndex(cards, activeId, cards[i]) < StackIndex(cards, activeId, cards[j]) < |cards| - 1
    ensures ZIndex(StackIndex(cards, activeId, cards[i])) > ZIndex(StackIndex(cards, activeId, cards[j]))
  {
    var p := (c: Card) => c.id != activeId;
    StackIndexIsRank(cards, activeId, i);
    StackIndexIsRank(cards, activeId, j);
    RankIncreases(cards, p, i, j);
    RankIncreases(cards, p, j, |cards|);
    assert cards[..|cards|] == cards;
    var c :| c in cards && c.id == activeId;
    FilterDropsFailing(cards, p, c);
  }

  /** `Math.floor(1000 + Math.random() * 9000)`. */
  function Last4Number(random: real): (n: int)
    requires 0.0 <= random < 1.0
    ensures 1000 <= n <= 9999
  {
    (1000.0 + random * 9000.0).Floor
  }

  function DigitChar(d: int): char
    requires 0 <= d < 10
  {
    ('0' as int + d) as char
  }

  predicate IsDigit(c: char) {
    '0' <= c <= '9'
  }

  /** `n.toString()`. */
  function DecimalString(n: nat): (s: string)
    ensures s != [] && forall i :: 0 <= i < |s| ==> IsDigit(s[i])
  {
    if n < 10 then [DigitChar(n)] else DecimalString(n / 10) + [DigitChar(n % 10)]
  }

  /** The value of a string of decimal digits. */
  function DecimalValue(s: string): int
    requires forall i :: 0 <= i < |s| ==> IsDigit(s[i])
  {
    if s == [] then 0 else 10 * DecimalValue(s[..|s| - 1]) + (s[|s| - 1] as int - '0' as int)
  }

  /** Reading back a printed number gives the number. */
  lemma {:induction false} DecimalRoundTrip(n: nat)
    ensures DecimalValue(DecimalString(n)) == n
  {
    var s := DecimalString(n);
    if n >= 10 {
      DecimalRoundTrip(n / 10);
      assert s[..|s| - 1] == DecimalString(n / 10);
    }
  }

  /** Numbers from 1000 to 9999 print as four digits. */
  lemma FourDigits(n: nat)
    requires 1000 <= n <= 9999
    ensures |DecimalString(n)| == 4
  {
    assert |DecimalString(n / 1000)| == 1;
    assert DecimalString(n / 100) == DecimalString(n / 1000) + [DigitChar(n / 100 % 10)];
    assert DecimalString(n / 10) == DecimalString(n / 100) + [DigitChar(n / 10 % 10)];
  }

  /** `last4`: four decimal digits whose value lies between 1000 and 9999. */
  function Last4(random: real): (s: string)
    requires 0.0 <= random < 1.0
    ensures |s| == 4 && forall i :: 0 <= i < 4 ==> IsDigit(s[i])
    ensures 1000 <= DecimalValue(s) <= 9999 && s[0] != '0'
  {
    var n := Last4Number(random);
    FourDigits(n);
    DecimalRoundTrip(n);
    var s := DecimalString(n);
    assert s[0] != '0' by {
      if s[0] == '0' {
        LeadingDigitPositive(n);
      }
    }
    s
  }

  /** A number of at least 10 does not print with a leading zero. */
  lemma {:induction false} LeadingDigitPositive(n: nat)
    requires n >= 1
    ensures DecimalString(n)[0] != '0'
  {
    if n >= 10 {
      LeadingDigitPositive(n / 10);
    }
  }
}

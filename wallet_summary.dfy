/** The wallet summary: the total over all cards. */
module WalletSummary {
  import opened Seqs
  import opened Types

  function CardBalance(c: Card): real {
    c.balance
  }

  /** `totalBalance`: the balances of all cards, summed; never negative when no balance is. */
  function TotalBalance(cards: seq<Card>): (r: real)
    ensures (forall c :: c in cards ==> c.balance >= 0.0) ==> r >= 0.0
  {
    SumOfNonNegative(cards, CardBalance);
    SumOf(cards, CardBalance)
  }

  /** With no cards the total is 0. */
  lemma EmptyWalletIsZero()
    ensures TotalBalance([]) == 0.0
  {
  }

  /** Adding a card adds exactly its balance. */
  lemma AddCardAddsBalance(cards: seq<Card>, card: Card)
    ensures TotalBalance(cards + [card]) == TotalBalance(cards) + card.balance
  {
    SumOfAppend(cards, [card], CardBalance);
    SumOfSingleton(card, CardBalance);
  }

  /** The total does not depend on the order of the cards. */
  lemma TotalIgnoresOrder(cards: seq<Card>, reordered: seq<Card>)
    requires multiset(cards) == multiset(reordered)
    ensures TotalBalance(cards) == TotalBalance(reordered)
  {
    SumOfPermutation(cards, reordered, CardBalance);
  }

  /** With non-negative balances the total is at least each card's balance. */
  lemma TotalBoundsEachCard(cards: seq<Card>, k: nat)
    requires k < |cards| && forall c :: c in cards ==> c.balance >= 0.0
    ensures TotalBalance(cards) >= cards[k].balance
  {
    SumOfRemove(cards, k, CardBalance);
    SumOfNonNegative(cards[..k] + cards[k + 1..], CardBalance);
  }
}

/**
 * The earlier category tile: the bell subscribes and unsubscribes directly,
 * without an email dialog. Its icon lookup is the same map and fallback as
 * `CategoryCard.IconFor`, and the noun after its count is the inline rule
 * `Plurals.ShortActsNoun`.
 */
module LawRoadCategoryCard {
  /** What the bell announces. */
  datatype Notice = Subscribed | Unsubscribed

  class Card {
    var subscribed: bool

    constructor()
      ensures !subscribed
    {
      subscribed := false;
    }

    /** `handleSubscribe`: flips the flag; the notice reports the state the
        click started from. */
    method HandleSubscribe() returns (notice: Notice)
      modifies this
      ensures subscribed == !old(subscribed)
      ensures notice == Subscribed <==> !old(subscribed)
    {
      var was := subscribed;
      subscribed := !subscribed;
      notice := if !was then Subscribed else Unsubscribed;
    }
  }

  /** Two clicks restore the tile. */
  method ClickTwice(card: Card) returns (first: Notice, second: Notice)
    modifies card
    ensures card.subscribed == old(card.subscribed) && first != second
  {
    first := card.HandleSubscribe();
    second := card.HandleSubscribe();
  }
}

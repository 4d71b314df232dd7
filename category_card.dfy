/**
 * The category tile of the home page: its icon, its count line, and the bell
 * that subscribes through the email dialog.
 */
module CategoryCard {
  import opened MockData
  import Plurals

  /** The icon names `iconMap` knows. */
  const IconNames: set<string> := {"Banknote", "Scale", "Shield", "GraduationCap", "Heart", "Leaf",
    "Train", "Building2", "Wheat", "Monitor", "Palette", "Landmark", "FileText"}

  /** The keys every plain object literal inherits from `Object.prototype`;
      `iconMap[key]` finds them although `iconMap` does not declare them. */
  const InheritedKeys: set<string> := {"constructor", "hasOwnProperty", "isPrototypeOf",
    "propertyIsEnumerable", "toLocaleString", "toString", "valueOf", "__proto__",
    "__defineGetter__", "__defineSetter__", "__lookupGetter__", "__lookupSetter__"}

  /** What `iconMap[icon] || FileText` yields: one of the imported icons, or an
      inherited member of `Object.prototype` (always truthy, so never replaced). */
  datatype IconLookup = Lucide(name: string) | Inherited(key: string)

  /** `iconMap[icon] || FileText`. */
  function IconFor(icon: string): (shown: IconLookup)
    ensures icon in IconNames ==> shown == Lucide(icon)
    ensures icon !in IconNames && icon in InheritedKeys ==> shown == Inherited(icon)
    ensures icon !in IconNames && icon !in InheritedKeys ==> shown == Lucide("FileText")
    ensures shown.Lucide? ==> shown.name in IconNames
  {
    if icon in IconNames then Lucide(icon)
    else if icon in InheritedKeys then Inherited(icon)
    else Lucide("FileText")
  }

  /** Every category of the catalogue names a known icon. */
  lemma CatalogueIconsKnown()
    ensures forall c :: c in Categories ==> IconFor(c.icon) == Lucide(c.icon)
  {
  }

  /** A name `iconMap` does not declare is not always drawn as FileText: an
      inherited key such as "toString" is found on the prototype. */
  lemma InheritedKeyEscapesFallback()
    ensures "toString" !in IconNames && IconFor("toString") != Lucide("FileText")
  {
  }

  /** The tile's noun, `count === 1 ? "akt" : count < 5 ? "akty" : "aktów"`,
      disagrees with the all-acts page's Polish rule for 0 and 21 to 24. */
  lemma TileNounDiffersFromPage()
    ensures forall n :: n in {0, 21, 22, 23, 24} ==> Plurals.ShortActsNoun(n) != Plurals.ActsNoun(n, "pl")
  {
    Plurals.RulesAgreeUpToThirty(0);
    Plurals.RulesAgreeUpToThirty(21);
    Plurals.RulesAgreeUpToThirty(22);
    Plurals.RulesAgreeUpToThirty(23);
    Plurals.RulesAgreeUpToThirty(24);
  }

  class Card {
    var subscribed: bool
    var dialogOpen: bool

    constructor()
      ensures !subscribed && !dialogOpen
    {
      subscribed := false;
      dialogOpen := false;
    }

    /** The bell: while unsubscribed it opens the email dialog and stays
        unsubscribed; while subscribed it unsubscribes at once, with a notice. */
    method HandleSubscribe() returns (unsubscribeNotice: bool)
      modifies this
      ensures unsubscribeNotice == old(subscribed)
      ensures !old(subscribed) ==> dialogOpen && !subscribed
      ensures old(subscribed) ==> !subscribed && dialogOpen == old(dialogOpen)
    {
      if !subscribed {
        dialogOpen := true;
        unsubscribeNotice := false;
      } else {
        subscribed := false;
        unsubscribeNotice := true;
      }
    }

    /** `handleEmailSubscribe`, the dialog's `onSubscribe`: subscribes. */
    method HandleEmailSubscribe(email: string)
      modifies this
      ensures subscribed && dialogOpen == old(dialogOpen)
    {
      subscribed := true;
    }

    /** The dialog's `onOpenChange`. */
    method SetDialogOpen(open: bool)
      modifies this
      ensures dialogOpen == open && subscribed == old(subscribed)
    {
      dialogOpen := open;
    }
  }

  /** Click, then give an email: the tile ends subscribed with the dialog open
      until the dialog closes itself. */
  method SubscribeThroughDialog(card: Card, email: string)
    requires !card.subscribed
    modifies card
    ensures card.subscribed && card.dialogOpen
  {
    var notice := card.HandleSubscribe();
    card.HandleEmailSubscribe(email);
  }
}

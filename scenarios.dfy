/** The four records the page's simulated fetch delivers, and what the
    listing shows for them under a few selections. */
module Scenarios {
  import opened Sequences
  import opened Text
  import opened CardFilter

  const Burner1: Card := Card(1, "burner", "Burner Card 1", 100, 500, "Active")
  const Burner2: Card := Card(2, "burner", "Burner Card 2", 200, 400, "Blocked")
  const Subscription1: Card := Card(3, "subscription", "Subscription Card 1", 300, 700, "Active")
  const Subscription2: Card := Card(4, "subscription", "Subscription Card 2", 400, 600, "Active")

  const MockCards: seq<Card> := [Burner1, Burner2, Subscription1, Subscription2]

  /** The selection with every condition off, on the given tab. */
  function OnTab(tab: string): Selection
  {
    Selection(tab, "", AllOption, AllOption, false)
  }

  /** What filtering keeps of a single element. */
  function Kept(keep: Card -> bool, x: Card): seq<Card>
  {
    if keep(x) then [x] else []
  }

  /** Filters a two-element list one element at a time. */
  lemma FilterTwo(keep: Card -> bool, c: Card, d: Card)
    ensures Filter(keep, [c, d]) == Kept(keep, c) + Kept(keep, d)
  {
    FilterCons(keep, c, [d]);
    FilterCons(keep, d, []);
    assert [c] + [d] == [c, d];
    assert [d] + [] == [d];
  }

  /** Filters a four-element list one element at a time. */
  lemma FilterFour(keep: Card -> bool, a: Card, b: Card, c: Card, d: Card)
    ensures Filter(keep, [a, b, c, d]) == Kept(keep, a) + Kept(keep, b) + (Kept(keep, c) + Kept(keep, d))
  {
    FilterTwo(keep, c, d);
    FilterCons(keep, b, [c, d]);
    FilterCons(keep, a, [b, c, d]);
    assert [b] + [c, d] == [b, c, d];
    assert [a] + [b, c, d] == [a, b, c, d];
  }

  /** On first display the blocked card is hidden. */
  lemma InitialListingHidesBlocked()
    ensures Visible(MockCards, InitialSelection) == [Burner1, Subscription1, Subscription2]
  {
    VisibleIsFilterByMatches(MockCards, InitialSelection);
    FilterFour(c => Matches(InitialSelection, c), Burner1, Burner2, Subscription1, Subscription2);
  }

  /** The "blocked" tab applies no status condition, so it shows every
      card, the active ones included. */
  lemma BlockedTabShowsEverything()
    ensures Visible(MockCards, OnTab("blocked")) == MockCards
  {
    VisibleIsFilterByMatches(MockCards, OnTab("blocked"));
    FilterKeepsAll(c => Matches(OnTab("blocked"), c), MockCards);
  }

  // What the search "burner" decides for each mock card's name.

  lemma Burner1NameHasBurner()
    ensures Includes(ToLower("Burner Card 1"), ToLower("burner"))
  {
    LoweredPrefixIncluded("Burner Card 1", "burner");
  }

  lemma Burner2NameHasBurner()
    ensures Includes(ToLower("Burner Card 2"), ToLower("burner"))
  {
    LoweredPrefixIncluded("Burner Card 2", "burner");
  }

  lemma Subscription1NameLacksBurner()
    ensures !Includes(ToLower("Subscription Card 1"), ToLower("burner"))
  {
    LoweredLetterMissing("Subscription Card 1", "burner", 4);
  }

  lemma Subscription2NameLacksBurner()
    ensures !Includes(ToLower("Subscription Card 2"), ToLower("burner"))
  {
    LoweredLetterMissing("Subscription Card 2", "burner", 4);
  }

  /** Searching "burner" finds both burner cards although their names
      are capitalised, and neither subscription card. */
  lemma SearchIsCaseInsensitive()
    ensures Visible(MockCards, OnTab("all").(searchQuery := "burner")) == [Burner1, Burner2]
  {
    Burner1NameHasBurner();
    Burner2NameHasBurner();
    Subscription1NameLacksBurner();
    Subscription2NameLacksBurner();
    SearchListing(OnTab("all").(searchQuery := "burner"), Burner1, Burner2, Subscription1, Subscription2);
  }

  /** A search that keeps the first two of four cards and drops the others. */
  lemma SearchListing(sel: Selection, a: Card, b: Card, c: Card, d: Card)
    requires sel == OnTab("all").(searchQuery := sel.searchQuery) && sel.searchQuery != ""
    requires Includes(ToLower(a.name), ToLower(sel.searchQuery))
    requires Includes(ToLower(b.name), ToLower(sel.searchQuery))
    requires !Includes(ToLower(c.name), ToLower(sel.searchQuery))
    requires !Includes(ToLower(d.name), ToLower(sel.searchQuery))
    ensures Visible([a, b, c, d], sel) == [a, b]
  {
    VisibleIsFilterByMatches([a, b, c, d], sel);
    FilterFour(x => Matches(sel, x), a, b, c, d);
  }

  /** Choosing the subscription type keeps the two subscription cards. */
  lemma TypeFilterKeepsSubscriptions()
    ensures Visible(MockCards, OnTab("all").(cardTypeFilter := "subscription")) == [Subscription1, Subscription2]
  {
    var sel := OnTab("all").(cardTypeFilter := "subscription");
    VisibleIsFilterByMatches(MockCards, sel);
    FilterFour(c => Matches(sel, c), Burner1, Burner2, Subscription1, Subscription2);
  }

  /** Choosing a name keeps exactly the card of that name. */
  lemma NameFilterPicksOneCard()
    ensures Visible(MockCards, OnTab("all").(cardNameFilter := "Burner Card 2")) == [Burner2]
  {
    var sel := OnTab("all").(cardNameFilter := "Burner Card 2");
    VisibleIsFilterByMatches(MockCards, sel);
    FilterFour(c => Matches(sel, c), Burner1, Burner2, Subscription1, Subscription2);
  }
  /** The name filter does not fold case: a lower-cased name matches nothing. */
  lemma NameFilterIsCaseSensitive()
    ensures Visible(MockCards, OnTab("all").(cardNameFilter := "burner card 1")) == []
  {
    NameFilterIsSound(MockCards, OnTab("all").(cardNameFilter := "burner card 1"));
  }

  /** An unknown type gives an empty listing. */
  lemma UnknownTypeShowsNothing()
    ensures Visible(MockCards, OnTab("all").(cardTypeFilter := "nonexistent-type")) == []
  {
    TypeFilterIsSound(MockCards, OnTab("all").(cardTypeFilter := "nonexistent-type"));
  }
}

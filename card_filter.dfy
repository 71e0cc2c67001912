/** The card-selection engine of the card listing page: a card record, the
    selection state that drives the listing, and the four-stage pipeline
    that turns the full card list into the visible one. */
module CardFilter {
  import opened Sequences
  import opened Text

  /** One payment card. `spent` and `availableToSpend` are carried along
      for display and never read by the pipeline. */
  datatype Card = Card(
    id: int,
    cardType: string,
    name: string,
    spent: int,
    availableToSpend: int,
    status: string)

  /** The values the page keeps between interactions. `activeTab`,
      `cardTypeFilter` and `cardNameFilter` hold whatever string the UI
      passed in; nothing restricts them to the values the widgets offer. */
  datatype Selection = Selection(
    activeTab: string,
    searchQuery: string,
    cardTypeFilter: string,
    cardNameFilter: string,
    isFilterOpen: bool)

  /** The tab that restricts the listing to active cards. */
  const YourTab: string := "your"
  /** The card status that tab keeps. */
  const ActiveStatus: string := "Active"
  /** The dropdown value meaning "no constraint". */
  const AllOption: string := "all"

  /** The state the page starts in: the "your" tab, no search text, both
      dropdowns on "all" and the filter panel closed. */
  const InitialSelection: Selection :=
    Selection(YourTab, "", AllOption, AllOption, false)

  // The four stages, each applied only when its guard holds.

  function TabStage(cards: seq<Card>, activeTab: string): seq<Card>
  {
    if activeTab == YourTab then Filter((c: Card) => c.status == ActiveStatus, cards) else cards
  }

  function SearchStage(cards: seq<Card>, searchQuery: string): seq<Card>
  {
    if searchQuery != "" then
      Filter((c: Card) => Includes(ToLower(c.name), ToLower(searchQuery)), cards)
    else cards
  }

  function TypeStage(cards: seq<Card>, cardTypeFilter: string): seq<Card>
  {
    if cardTypeFilter != AllOption then Filter((c: Card) => c.cardType == cardTypeFilter, cards) else cards
  }

  function NameStage(cards: seq<Card>, cardNameFilter: string): seq<Card>
  {
    if cardNameFilter != AllOption then Filter((c: Card) => c.name == cardNameFilter, cards) else cards
  }

  /** The cards the page shows: tab, search, type and name stages in that
      order. */
  function Visible(cards: seq<Card>, sel: Selection): seq<Card>
  {
    var afterTab := TabStage(cards, sel.activeTab);
    var afterSearch := SearchStage(afterTab, sel.searchQuery);
    var afterType := TypeStage(afterSearch, sel.cardTypeFilter);
    NameStage(afterType, sel.cardNameFilter)
  }

  // The condition each stage imposes on a single card, as a whole.

  predicate TabKeeps(activeTab: string, c: Card)
  {
    activeTab == YourTab ==> c.status == ActiveStatus
  }

  predicate SearchKeeps(searchQuery: string, c: Card)
  {
    searchQuery != "" ==> Includes(ToLower(c.name), ToLower(searchQuery))
  }

  predicate TypeKeeps(cardTypeFilter: string, c: Card)
  {
    cardTypeFilter != AllOption ==> c.cardType == cardTypeFilter
  }

  predicate NameKeeps(cardNameFilter: string, c: Card)
  {
    cardNameFilter != AllOption ==> c.name == cardNameFilter
  }

  /** A card passes the selection when it passes all four conditions. */
  predicate Matches(sel: Selection, c: Card)
  {
    && TabKeeps(sel.activeTab, c)
    && SearchKeeps(sel.searchQuery, c)
    && TypeKeeps(sel.cardTypeFilter, c)
    && NameKeeps(sel.cardNameFilter, c)
  }

  // Each stage is a filter by its condition, guard included.

  lemma TabStageIsFilter(cards: seq<Card>, activeTab: string)
    ensures TabStage(cards, activeTab) == Filter(c => TabKeeps(activeTab, c), cards)
  {
    if activeTab == YourTab {
      FilterExtensional((c: Card) => c.status == ActiveStatus, c => TabKeeps(activeTab, c), cards);
    } else {
      FilterKeepsAll(c => TabKeeps(activeTab, c), cards);
    }
  }

  lemma SearchStageIsFilter(cards: seq<Card>, searchQuery: string)
    ensures SearchStage(cards, searchQuery) == Filter(c => SearchKeeps(searchQuery, c), cards)
  {
    if searchQuery != "" {
      FilterExtensional((c: Card) => Includes(ToLower(c.name), ToLower(searchQuery)),
                        c => SearchKeeps(searchQuery, c), cards);
    } else {
      FilterKeepsAll(c => SearchKeeps(searchQuery, c), cards);
    }
  }

  lemma TypeStageIsFilter(cards: seq<Card>, cardTypeFilter: string)
    ensures TypeStage(cards, cardTypeFilter) == Filter(c => TypeKeeps(cardTypeFilter, c), cards)
  {
    if cardTypeFilter != AllOption {
      FilterExtensional((c: Card) => c.cardType == cardTypeFilter, c => TypeKeeps(cardTypeFilter, c), cards);
    } else {
      FilterKeepsAll(c => TypeKeeps(cardTypeFilter, c), cards);
    }
  }

  lemma NameStageIsFilter(cards: seq<Card>, cardNameFilter: string)
    ensures NameStage(cards, cardNameFilter) == Filter(c => NameKeeps(cardNameFilter, c), cards)
  {
    if cardNameFilter != AllOption {
      FilterExtensional((c: Card) => c.name == cardNameFilter, c => NameKeeps(cardNameFilter, c), cards);
    } else {
      FilterKeepsAll(c => NameKeeps(cardNameFilter, c), cards);
    }
  }

  /** The four-stage pipeline selects exactly what a single filter by the
      conjunction of the four conditions selects: same cards, same order,
      same multiplicities. */
  lemma VisibleIsFilterByMatches(cards: seq<Card>, sel: Selection)
    ensures Visible(cards, sel) == Filter(c => Matches(sel, c), cards)
  {
    var tab := c => TabKeeps(sel.activeTab, c);
    var search := c => SearchKeeps(sel.searchQuery, c);
    var typ := c => TypeKeeps(sel.cardTypeFilter, c);
    var name := c => NameKeeps(sel.cardNameFilter, c);
    var ts := c => tab(c) && search(c);
    var tst := c => ts(c) && typ(c);
    var all := c => Matches(sel, c);
    var afterTab := TabStage(cards, sel.activeTab);
    var afterSearch := SearchStage(afterTab, sel.searchQuery);
    var afterType := TypeStage(afterSearch, sel.cardTypeFilter);
    assert afterTab == Filter(tab, cards) by {
      TabStageIsFilter(cards, sel.activeTab);
    }
    assert afterSearch == Filter(ts, cards) by {
      SearchStageIsFilter(afterTab, sel.searchQuery);
      FilterFusion(tab, search, ts, cards);
    }
    assert afterType == Filter(tst, cards) by {
      TypeStageIsFilter(afterSearch, sel.cardTypeFilter);
      FilterFusion(ts, typ, tst, cards);
    }
    NameStageIsFilter(afterType, sel.cardNameFilter);
    FilterFusion(tst, name, all, cards);
  }

  /** Completeness and soundness together: a card is visible exactly when
      it is in the input and satisfies all four conditions; a visible card
      is shown as often as it occurs in the input. */
  lemma VisibleMembership(cards: seq<Card>, sel: Selection)
    ensures forall c :: c in Visible(cards, sel) <==> c in cards && Matches(sel, c)
    ensures forall c :: c in Visible(cards, sel) ==> multiset(Visible(cards, sel))[c] == multiset(cards)[c]
  {
    VisibleIsFilterByMatches(cards, sel);
    FilterMembership(c => Matches(sel, c), cards);
    FilterMultiplicity(c => Matches(sel, c), cards);
  }

  /** Every stage is a filter, so the visible list is an order-preserving
      subsequence of the input; no input gives no output. */
  lemma VisibleIsSubsequence(cards: seq<Card>, sel: Selection)
    ensures IsSubsequence(Visible(cards, sel), cards)
    ensures |Visible(cards, sel)| <= |cards|
    ensures cards == [] ==> Visible(cards, sel) == []
  {
    VisibleIsFilterByMatches(cards, sel);
    FilterIsSubsequence(c => Matches(sel, c), cards);
  }

  /** On the "your" tab only active cards are shown. */
  lemma YourTabShowsOnlyActive(cards: seq<Card>, sel: Selection)
    requires sel.activeTab == YourTab
    ensures forall c :: c in Visible(cards, sel) ==> c.status == ActiveStatus
  {
    VisibleMembership(cards, sel);
  }

  /** Any tab other than "your" applies no status condition at all, so the
      "blocked" tab shows the same list as the "all" tab: blocked cards
      are not singled out. */
  lemma OtherTabsShowSameAsAll(cards: seq<Card>, sel: Selection, tab: string)
    requires tab != YourTab
    ensures Visible(cards, sel.(activeTab := tab)) == Visible(cards, sel.(activeTab := AllOption))
    ensures Visible(cards, sel.(activeTab := "blocked")) == Visible(cards, sel.(activeTab := AllOption))
  {
  }

  /** A non-empty search keeps only cards whose lower-cased name contains
      the lower-cased query somewhere. */
  lemma SearchIsSound(cards: seq<Card>, sel: Selection)
    requires sel.searchQuery != ""
    ensures forall c :: c in Visible(cards, sel) ==> ContainsText(ToLower(c.name), ToLower(sel.searchQuery))
  {
    VisibleMembership(cards, sel);
    forall c | c in Visible(cards, sel)
      ensures ContainsText(ToLower(c.name), ToLower(sel.searchQuery))
    {
      IncludesSpec(ToLower(c.name), ToLower(sel.searchQuery));
    }
  }

  /** The search compares lower-cased texts, so lower-casing the query
      first changes nothing. */
  lemma SearchIgnoresQueryCase(cards: seq<Card>, sel: Selection)
    ensures Visible(cards, sel.(searchQuery := ToLower(sel.searchQuery))) == Visible(cards, sel)
  {
    var lowered := sel.(searchQuery := ToLower(sel.searchQuery));
    ToLowerIdempotent(sel.searchQuery);
    ToLowerEmpty(sel.searchQuery);
    VisibleIsFilterByMatches(cards, sel);
    VisibleIsFilterByMatches(cards, lowered);
    FilterExtensional(c => Matches(lowered, c), c => Matches(sel, c), cards);
  }

  /** An empty search text imposes no constraint: the listing is what the
      other three conditions select. */
  lemma EmptySearchKeepsAll(cards: seq<Card>, sel: Selection)
    requires sel.searchQuery == ""
    ensures forall c :: c in Visible(cards, sel) <==>
      c in cards && TabKeeps(sel.activeTab, c) && TypeKeeps(sel.cardTypeFilter, c)
      && NameKeeps(sel.cardNameFilter, c)
  {
    VisibleMembership(cards, sel);
  }

  /** A type filter other than "all" keeps only cards of exactly that type;
      a type no input card has gives an empty listing, not an error. */
  lemma TypeFilterIsSound(cards: seq<Card>, sel: Selection)
    requires sel.cardTypeFilter != AllOption
    ensures forall c :: c in Visible(cards, sel) ==> c.cardType == sel.cardTypeFilter
    ensures (forall c :: c in cards ==> c.cardType != sel.cardTypeFilter) ==> Visible(cards, sel) == []
  {
    VisibleMembership(cards, sel);
    if forall c :: c in cards ==> c.cardType != sel.cardTypeFilter {
      VisibleIsFilterByMatches(cards, sel);
      FilterRejectsAll(c => Matches(sel, c), cards);
    }
  }

  /** A name filter other than "all" keeps only cards whose name equals it
      character for character; there is no case folding. */
  lemma NameFilterIsSound(cards: seq<Card>, sel: Selection)
    requires sel.cardNameFilter != AllOption
    ensures forall c :: c in Visible(cards, sel) ==> c.name == sel.cardNameFilter
    ensures (forall c :: c in cards ==> c.name != sel.cardNameFilter) ==> Visible(cards, sel) == []
  {
    VisibleMembership(cards, sel);
    if forall c :: c in cards ==> c.name != sel.cardNameFilter {
      VisibleIsFilterByMatches(cards, sel);
      FilterRejectsAll(c => Matches(sel, c), cards);
    }
  }

  /** Whether the filter panel is open never affects the listing. */
  lemma FilterPanelIrrelevant(cards: seq<Card>, sel: Selection, open: bool)
    ensures Visible(cards, sel.(isFilterOpen := open)) == Visible(cards, sel)
  {
  }

  /** `finer` constrains at least as much as `coarser`: each field is either
      the same, or `coarser` leaves that condition off. */
  predicate Narrows(finer: Selection, coarser: Selection)
  {
    && (coarser.activeTab == YourTab ==> finer.activeTab == YourTab)
    && (coarser.searchQuery == "" || finer.searchQuery == coarser.searchQuery)
    && (coarser.cardTypeFilter == AllOption || finer.cardTypeFilter == coarser.cardTypeFilter)
    && (coarser.cardNameFilter == AllOption || finer.cardNameFilter == coarser.cardNameFilter)
  }

  /** Turning on more conditions only shrinks the listing: the finer listing
      is a subsequence of the coarser one, and is exactly the coarser
      listing filtered by the finer selection. */
  lemma NarrowingShrinks(cards: seq<Card>, finer: Selection, coarser: Selection)
    requires Narrows(finer, coarser)
    ensures IsSubsequence(Visible(cards, finer), Visible(cards, coarser))
    ensures Visible(cards, finer) == Filter(c => Matches(finer, c), Visible(cards, coarser))
  {
    var fine := c => Matches(finer, c);
    var coarse := c => Matches(coarser, c);
    VisibleIsFilterByMatches(cards, finer);
    VisibleIsFilterByMatches(cards, coarser);
    FilterStrongerIsSubsequence(fine, coarse, cards);
    FilterFusion(coarse, fine, fine, cards);
  }
}

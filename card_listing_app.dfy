/** The card listing page's own state and the handlers that change it, one
    field per user action. */
module CardListingApp {
  import opened Sequences
  import opened CardFilter

  class App {
    var cards: seq<Card>
    var activeTab: string
    var searchQuery: string
    var cardTypeFilter: string
    var cardNameFilter: string
    var isFilterOpen: bool

    /** The selection fields as one record. */
    function Current(): Selection
      reads this
    {
      Selection(activeTab, searchQuery, cardTypeFilter, cardNameFilter, isFilterOpen)
    }

    /** The page starts with no cards and the initial selection. */
    constructor ()
      ensures cards == []
      ensures Current() == InitialSelection
    {
      activeTab := YourTab;
      cards := [];
      searchQuery := "";
      cardTypeFilter := AllOption;
      cardNameFilter := AllOption;
      isFilterOpen := false;
    }

    /** Stores the card list delivered by the data source. */
    method SetCards(data: seq<Card>)
      modifies this
      ensures cards == data
      ensures Current() == old(Current())
    {
      cards := data;
    }

    /** Selects a tab; any string is accepted as it is. Switching to the
        "your" tab can only shrink the listing. */
    method HandleTabClick(tab: string)
      modifies this
      ensures Current() == old(Current()).(activeTab := tab)
      ensures cards == old(cards)
      ensures tab == YourTab ==> IsSubsequence(Visible(cards, Current()), old(Visible(cards, Current())))
    {
      activeTab := tab;
      if tab == YourTab {
        NarrowingShrinks(cards, Current(), old(Current()));
      }
    }

    /** Takes the search box's text unmodified: no trimming, no case change.
        Typing into an empty box can only shrink the listing. */
    method HandleSearch(value: string)
      modifies this
      ensures Current() == old(Current()).(searchQuery := value)
      ensures cards == old(cards)
      ensures old(searchQuery) == "" ==> IsSubsequence(Visible(cards, Current()), old(Visible(cards, Current())))
    {
      searchQuery := value;
      if old(searchQuery) == "" {
        NarrowingShrinks(cards, Current(), old(Current()));
      }
    }

    /** Takes the type dropdown's value; unknown types are not rejected.
        Leaving "all" can only shrink the listing. */
    method HandleCardTypeFilter(value: string)
      modifies this
      ensures Current() == old(Current()).(cardTypeFilter := value)
      ensures cards == old(cards)
      ensures old(cardTypeFilter) == AllOption ==> IsSubsequence(Visible(cards, Current()), old(Visible(cards, Current())))
    {
      cardTypeFilter := value;
      if old(cardTypeFilter) == AllOption {
        NarrowingShrinks(cards, Current(), old(Current()));
      }
    }

    /** Takes the name dropdown's value; unknown names are not rejected.
        Leaving "all" can only shrink the listing. */
    method HandleCardNameFilter(value: string)
      modifies this
      ensures Current() == old(Current()).(cardNameFilter := value)
      ensures cards == old(cards)
      ensures old(cardNameFilter) == AllOption ==> IsSubsequence(Visible(cards, Current()), old(Visible(cards, Current())))
    {
      cardNameFilter := value;
      if old(cardNameFilter) == AllOption {
        NarrowingShrinks(cards, Current(), old(Current()));
      }
    }

    /** Opens a closed filter panel and closes an open one; the listing
        stays as it was. */
    method ToggleFilter()
      modifies this
      ensures Current() == old(Current()).(isFilterOpen := !old(isFilterOpen))
      ensures cards == old(cards)
      ensures Visible(cards, Current()) == old(Visible(cards, Current()))
    {
      isFilterOpen := !isFilterOpen;
      FilterPanelIrrelevant(cards, old(Current()), isFilterOpen);
    }

    /** The cards the page renders for the current state: exactly the
        stored cards that pass every active condition, in stored order. */
    method FilteringCardsByButton() returns (shown: seq<Card>)
      ensures shown == Visible(cards, Current())
      ensures forall c :: c in shown <==> c in cards && Matches(Current(), c)
      ensures IsSubsequence(shown, cards)
    {
      shown := Visible(cards, Current());
      VisibleMembership(cards, Current());
      VisibleIsSubsequence(cards, Current());
    }
  }

  /** Clicking the filter button twice restores the panel and changes
      nothing else. */
  method ToggleTwiceRestores(app: App)
    modifies app
    ensures app.Current() == old(app.Current())
    ensures app.cards == old(app.cards)
  {
    app.ToggleFilter();
    app.ToggleFilter();
  }

  /** Typing a query, then choosing a type, leaves the tab and the name
      filter as they were: the selection fields are independent. */
  method HandlersAreIndependent(app: App, query: string, cardType: string)
    modifies app
    ensures app.Current() == old(app.Current()).(searchQuery := query, cardTypeFilter := cardType)
    ensures app.cards == old(app.cards)
  {
    app.HandleSearch(query);
    app.HandleCardTypeFilter(cardType);
  }
}

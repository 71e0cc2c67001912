# Card listing: selection engine

This project models the card-selection engine of the card listing page
(`App` in `src/Components/CardListing.js`). The page keeps a list of payment
cards and a selection: the active tab, the search text, a card-type filter
and a card-name filter, plus whether the filter panel is open. Every render
narrows the card list in four guarded `Array.filter` stages, always in this
order:

1. the "your" tab keeps only cards whose status is `Active`;
2. a non-empty search keeps cards whose lower-cased name contains the
   lower-cased search text;
3. a type filter other than `all` keeps cards of exactly that type;
4. a name filter other than `all` keeps cards of exactly that name.

Each user action overwrites one field of the selection with the raw value
it receives. The filter button is the exception: it negates
`isFilterOpen`.

Files:

- `sequences.dfy` (module `Sequences`): `Filter`, which is `Array.filter`
  on a `seq`, and the subsequence relation. It also holds the generic
  lemmas: membership, multiplicity, subsequence, fusion of two filters,
  extensionality.
- `text.dfy` (module `Text`): ASCII `ToLower`, and `Includes`, the
  left-to-right substring test. `Includes` is proved equal to
  `ContainsText`, which says an occurrence exists at some index.
- `card_filter.dfy` (module `CardFilter`): the `Card` and `Selection`
  records, the initial selection, the four stages, `Visible` (the whole
  pipeline) and `Matches` (the four conditions as one conjunction). It also
  holds the lemmas about the listing.
- `card_listing_app.dfy` (module `CardListingApp`): class `App`, with one
  field per piece of component state and one method per handler.
- `scenarios.dfy` (module `Scenarios`): the four records of the simulated
  fetch, and the listing each of several selections produces for them.

The "blocked" tab is modelled as the code behaves. The tab stage branches
only on `'your'`, so "blocked" shows the same cards as "all", including
active ones (`CardFilter.OtherTabsShowSameAsAll`,
`Scenarios.BlockedTabShowsEverything`).

## Model

| member | source | states |
|---|---|---|
| `Sequences.Filter` | src/Components/CardListing.js:196 | `Array.filter` never yields more elements than its input |
| `Sequences.FilterMembership` | src/Components/CardListing.js:196 | an element is in the filtered list iff it is in the input and passes the predicate |
| `Sequences.FilterMultiplicity` | src/Components/CardListing.js:196 | a passing element is kept as often as it occurs in the input; a failing one is dropped |
| `Sequences.FilterIsSubsequence` | src/Components/CardListing.js:196 | filtering yields an order-preserving subsequence: nothing inserted, duplicated or reordered |
| `Sequences.FilterStrongerIsSubsequence` | src/Components/CardListing.js:192-211 | filtering by a stronger predicate yields a subsequence of filtering by a weaker one |
| `Sequences.FilterFusion` | src/Components/CardListing.js:192-211 | two successive filters equal one filter by the conjunction |
| `Sequences.FilterExtensional` | src/Components/CardListing.js:196 | predicates that agree on the input's elements filter it identically |
| `Sequences.FilterKeepsAll` | src/Components/CardListing.js:196 | a predicate that every element passes keeps the list unchanged |
| `Sequences.FilterRejectsAll` | src/Components/CardListing.js:206 | a predicate that every element fails yields the empty list |
| `Text.ToLower` | src/Components/CardListing.js:201 | lower-casing keeps the length and leaves no ASCII capital letter |
| `Text.ToLowerAt` | src/Components/CardListing.js:201 | each character of the result is the lower-cased input character at the same position |
| `Text.ToLowerIdempotent` | src/Components/CardListing.js:201 | lower-casing twice is lower-casing once |
| `Text.IncludesSpec` | src/Components/CardListing.js:201 | `includes` holds iff the query occurs at some index of the text |
| `Text.IncludedCharsOccur` | src/Components/CardListing.js:201 | every character of an included string occurs in the including string |
| `Text.LoweredPrefixIncluded` | src/Components/CardListing.js:201 | a text that starts with the query, up to case, passes the search test |
| `Text.LoweredLetterMissing` | src/Components/CardListing.js:201 | a text with no character matching some query letter, up to case, fails the search test |
| `CardFilter.TabStageIsFilter` | src/Components/CardListing.js:195-197 | the guarded tab stage equals a filter by "tab is not `your`, or status is `Active`" |
| `CardFilter.SearchStageIsFilter` | src/Components/CardListing.js:199-203 | the guarded search stage equals a filter by "query empty, or lowered name includes lowered query" |
| `CardFilter.TypeStageIsFilter` | src/Components/CardListing.js:205-207 | the guarded type stage equals a filter by "type filter is `all`, or type equals it" |
| `CardFilter.NameStageIsFilter` | src/Components/CardListing.js:209-211 | the guarded name stage equals a filter by "name filter is `all`, or name equals it" |
| `CardFilter.VisibleIsFilterByMatches` | src/Components/CardListing.js:192-211 | the four-stage pipeline equals one filter of the input by the conjunction of the four conditions |
| `CardFilter.VisibleMembership` | src/Components/CardListing.js:192-211 | a card is visible iff it is in the input and meets all four conditions; it appears as often as in the input |
| `CardFilter.VisibleIsSubsequence` | src/Components/CardListing.js:192-211 | the visible list is an order-preserving subsequence of the cards, no longer than them; no cards, no output |
| `CardFilter.YourTabShowsOnlyActive` | src/Components/CardListing.js:195-197 | on the `your` tab every visible card has status `Active` |
| `CardFilter.OtherTabsShowSameAsAll` | src/Components/CardListing.js:195-197 | every tab other than `your`, `blocked` included, gives the same listing as `all` |
| `CardFilter.SearchIsSound` | src/Components/CardListing.js:199-203 | with a non-empty query, every visible card's lowered name contains the lowered query at some index |
| `CardFilter.SearchIgnoresQueryCase` | src/Components/CardListing.js:199-203 | lower-casing the query first leaves the listing unchanged |
| `CardFilter.EmptySearchKeepsAll` | src/Components/CardListing.js:199 | an empty query imposes no constraint: visibility is decided by the other three conditions alone |
| `CardFilter.TypeFilterIsSound` | src/Components/CardListing.js:205-207 | a type filter other than `all` shows only cards of that exact type; a type no card has shows nothing |
| `CardFilter.NameFilterIsSound` | src/Components/CardListing.js:209-211 | a name filter other than `all` shows only cards of exactly that name; a name no card has shows nothing |
| `CardFilter.FilterPanelIrrelevant` | src/Components/CardListing.js:192-211 | `isFilterOpen` never changes the listing |
| `CardFilter.NarrowingShrinks` | src/Components/CardListing.js:192-211 | a selection with more conditions on gives a subsequence of the coarser listing, namely that listing filtered again |
| `CardListingApp.App.constructor` | src/Components/CardListing.js:120-125 | the page starts with no cards, tab `your`, empty search, both filters `all`, panel closed |
| `CardListingApp.App.SetCards` | src/Components/CardListing.js:168 | storing the fetched cards replaces the card list and leaves the selection alone |
| `CardListingApp.App.HandleTabClick` | src/Components/CardListing.js:172-174 | sets `activeTab` to the raw tab and changes nothing else; switching to `your` can only shrink the listing |
| `CardListingApp.App.HandleSearch` | src/Components/CardListing.js:176-178 | sets `searchQuery` to the raw text and changes nothing else; typing into an empty box can only shrink the listing |
| `CardListingApp.App.HandleCardTypeFilter` | src/Components/CardListing.js:180-182 | sets `cardTypeFilter` to the raw value and changes nothing else; leaving `all` can only shrink the listing |
| `CardListingApp.App.HandleCardNameFilter` | src/Components/CardListing.js:184-186 | sets `cardNameFilter` to the raw value and changes nothing else; leaving `all` can only shrink the listing |
| `CardListingApp.App.ToggleFilter` | src/Components/CardListing.js:188-190 | negates `isFilterOpen`, changes nothing else and leaves the listing as it was |
| `CardListingApp.App.FilteringCardsByButton` | src/Components/CardListing.js:192-211 | the rendered cards are exactly the stored cards that meet every active condition, as a subsequence in stored order |
| `CardListingApp.ToggleTwiceRestores` | src/Components/CardListing.js:188-190 | clicking the filter button twice restores the whole state |
| `CardListingApp.HandlersAreIndependent` | src/Components/CardListing.js:176-182 | setting the search and then the type filter leaves tab, name filter and panel as they were |
| `Scenarios.InitialListingHidesBlocked` | src/Components/CardListing.js:134-167 | with the mock cards and the initial selection, the blocked burner card is hidden and the other three show in order |
| `Scenarios.BlockedTabShowsEverything` | src/Components/CardListing.js:195-197 | the `blocked` tab shows all four mock cards, active ones included |
| `Scenarios.SearchIsCaseInsensitive` | src/Components/CardListing.js:199-203 | searching `burner` shows exactly the two "Burner Card" mock cards |
| `Scenarios.TypeFilterKeepsSubscriptions` | src/Components/CardListing.js:205-207 | type `subscription` shows exactly the two subscription mock cards |
| `Scenarios.NameFilterPicksOneCard` | src/Components/CardListing.js:209-211 | name `Burner Card 2` shows exactly that mock card |
| `Scenarios.NameFilterIsCaseSensitive` | src/Components/CardListing.js:209-211 | name `burner card 1` (wrong case) shows nothing |
| `Scenarios.UnknownTypeShowsNothing` | src/Components/CardListing.js:205-207 | an unknown type shows nothing rather than failing |

## Left out

- Styled-component definitions (`src/Components/CardListing.js:4-117`) are presentation only.
- JSX rendering of each card and of the page (`src/Components/CardListing.js:213-275`) is not modelled. The rendered list is the `seq<Card>` that `FilteringCardsByButton` returns.
- `useEffect` and `fetchData` (`src/Components/CardListing.js:127-170`) are a timer-delayed mock fetch. The timer is left out. `App.SetCards` stands for the `setCards` call, and `Scenarios` uses the four mock records as concrete data.
- React `useState` scheduling and re-rendering are not modelled. Each handler is a method that updates its field at once. In React, `toggleFilter` reads `isFilterOpen` from the render that created it, so two clicks handled before a re-render would both see the same value. The model does not capture that.
- Handlers receive the raw value rather than a DOM event. `event.target.value` becomes a `string` parameter.
- Text.ToLower: models only ASCII lower-casing (`A`-`Z` to `a`-`z`), because JavaScript's full Unicode `toLowerCase` (special casings, locale-independent mappings of non-ASCII letters) is outside what the model encodes. Non-ASCII characters are left unchanged.
- Card records are assumed well-typed: `Card` always has a string `name`, `card_type` and `status`. In the source, a record without a string `name` makes `card.name.toLowerCase()` (`src/Components/CardListing.js:201`) throw a `TypeError` during a search. That error path is not modelled.
- `spent`, `available_to_spend` and `id` are carried as unbounded `int`s and never read. Uniqueness of `id` (the React key) is not enforced.

/**
 * The feedback list view (frontend/src/components/FeedbackList.tsx): the fetched items, a
 * loading flag and three filter fields, the filter that keeps the items matching all three,
 * the category options derived from the items and the urgent (negative) subset of the
 * filtered items.
 */
module FeedbackList {
  import opened Wrappers
  import opened Text
  import opened Seqs
  import opened Types
  import FilterPanel

  /** Case-insensitive substring search over the name, the product and the feedback text. */
  predicate MatchesSearch(f: Feedback, searchTerm: string) {
    var q := Lower(searchTerm);
    Contains(Lower(f.name), q) || Contains(Lower(f.product), q) || Contains(Lower(f.feedback), q)
  }

  /** An empty selection accepts every item; otherwise the category must be equal. */
  predicate MatchesCategory(f: Feedback, selectedCategory: string) {
    selectedCategory == "" || f.category == selectedCategory
  }

  /** An empty selection accepts every item; otherwise the sentiment must be equal. */
  predicate MatchesSentiment(f: Feedback, selectedSentiment: string) {
    selectedSentiment == "" || f.sentiment == selectedSentiment
  }

  predicate Matches(f: Feedback, searchTerm: string, selectedCategory: string, selectedSentiment: string) {
    MatchesSearch(f, searchTerm) && MatchesCategory(f, selectedCategory) && MatchesSentiment(f, selectedSentiment)
  }

  /** `filteredFeedbacks`. */
  function Filtered(fs: seq<Feedback>, searchTerm: string, selectedCategory: string, selectedSentiment: string): seq<Feedback>
  {
    Filter(fs, f => Matches(f, searchTerm, selectedCategory, selectedSentiment))
  }

  /** `categories`: each category of the fetched items once, in first-occurrence order. */
  function Categories(fs: seq<Feedback>): seq<string>
  {
    Distinct(CategoriesOf(fs))
  }

  predicate IsNegative(f: Feedback) {
    f.sentiment == "negative"
  }

  /** `urgentFeedbacks`: the negative items of a (filtered) list. */
  function Urgent(shown: seq<Feedback>): seq<Feedback>
  {
    Filter(shown, IsNegative)
  }

  /** An item is shown exactly when all three conditions hold (a conjunction, not a disjunction). */
  lemma FilteredExactly(fs: seq<Feedback>, searchTerm: string, selectedCategory: string, selectedSentiment: string, f: Feedback)
    ensures f in Filtered(fs, searchTerm, selectedCategory, selectedSentiment) <==>
      f in fs && MatchesSearch(f, searchTerm) && MatchesCategory(f, selectedCategory) && MatchesSentiment(f, selectedSentiment)
  {
  }

  /** The filtered list keeps the fetched order and is never longer ("X of Y" has X <= Y). */
  lemma FilteredIsSubsequence(fs: seq<Feedback>, searchTerm: string, selectedCategory: string, selectedSentiment: string)
    ensures IsSubsequence(Filtered(fs, searchTerm, selectedCategory, selectedSentiment), fs)
    ensures |Filtered(fs, searchTerm, selectedCategory, selectedSentiment)| <= |fs|
  {
    FilterIsSubsequence(fs, f => Matches(f, searchTerm, selectedCategory, selectedSentiment));
  }

  /** The empty search term matches every item. */
  lemma EmptySearchMatchesAll(f: Feedback)
    ensures MatchesSearch(f, "")
  {
    ContainsEmpty(Lower(f.name));
  }

  /** The search ignores the id, the category and the sentiment of an item. */
  lemma SearchReadsOnlyText(f: Feedback, g: Feedback, searchTerm: string)
    requires f.name == g.name && f.product == g.product && f.feedback == g.feedback
    ensures MatchesSearch(f, searchTerm) == MatchesSearch(g, searchTerm)
  {
  }

  /** Search terms that agree up to letter case select the same items. */
  lemma SearchIgnoresCase(f: Feedback, a: string, b: string)
    requires Lower(a) == Lower(b)
    ensures MatchesSearch(f, a) == MatchesSearch(f, b)
  {
  }

  /** An occurrence of the term in any of the three texts, in any letter case, is a match. */
  lemma SearchFindsOccurrence(f: Feedback, searchTerm: string)
    requires Contains(f.name, searchTerm) || Contains(f.product, searchTerm) || Contains(f.feedback, searchTerm)
    ensures MatchesSearch(f, searchTerm)
  {
    if Contains(f.name, searchTerm) {
      ContainsLower(f.name, searchTerm);
    } else if Contains(f.product, searchTerm) {
      ContainsLower(f.product, searchTerm);
    } else {
      ContainsLower(f.feedback, searchTerm);
    }
  }

  /** With all three filters empty, every fetched item is shown, in order. */
  lemma NoFiltersShowsAll(fs: seq<Feedback>)
    ensures Filtered(fs, "", "", "") == fs
  {
    forall f | f in fs ensures Matches(f, "", "", "") {
      EmptySearchMatchesAll(f);
    }
    FilterKeepsAll(fs, f => Matches(f, "", "", ""));
  }

  /** Every category of the fetched items is offered exactly once, in first-occurrence order. */
  lemma CategoriesExactly(fs: seq<Feedback>)
    ensures NoDuplicates(Categories(fs))
    ensures forall c :: c in Categories(fs) <==> exists f :: f in fs && f.category == c
    ensures forall i, j :: 0 <= i < j < |Categories(fs)| ==>
      IndexOf(CategoriesOf(fs), Categories(fs)[i]) < IndexOf(CategoriesOf(fs), Categories(fs)[j])
  {
    DistinctFirstOccurrenceOrder(CategoriesOf(fs));
    forall c ensures c in Categories(fs) <==> exists f :: f in fs && f.category == c {
      if c in CategoriesOf(fs) {
        var i :| 0 <= i < |fs| && CategoriesOf(fs)[i] == c;
        assert fs[i] in fs;
      }
      if exists f :: f in fs && f.category == c {
        var f :| f in fs && f.category == c;
        var i :| 0 <= i < |fs| && fs[i] == f;
        assert CategoriesOf(fs)[i] == c;
      }
    }
  }

  /**
   * The urgent items are the negative items of the filtered list, so there are never more of
   * them than filtered items; and they are what filtering with the sentiment "negative" gives
   * when no other sentiment is selected.
   */
  lemma UrgentExactly(fs: seq<Feedback>, searchTerm: string, selectedCategory: string, selectedSentiment: string)
    ensures forall f :: f in Urgent(Filtered(fs, searchTerm, selectedCategory, selectedSentiment)) <==>
      f in Filtered(fs, searchTerm, selectedCategory, selectedSentiment) && f.sentiment == "negative"
    ensures |Urgent(Filtered(fs, searchTerm, selectedCategory, selectedSentiment))| <= |Filtered(fs, searchTerm, selectedCategory, selectedSentiment)|
    ensures selectedSentiment == "" || selectedSentiment == "negative" ==>
      Urgent(Filtered(fs, searchTerm, selectedCategory, selectedSentiment)) == Filtered(fs, searchTerm, selectedCategory, "negative")
  {
    if selectedSentiment == "" || selectedSentiment == "negative" {
      FilterFilter(fs, f => Matches(f, searchTerm, selectedCategory, selectedSentiment), IsNegative,
        f => Matches(f, searchTerm, selectedCategory, "negative"));
    }
  }

  /**
   * What the component renders: a spinner while loading, otherwise the "X of Y" counts, the
   * "(N urgent)" badge when some shown item is negative, the filter panel's category options
   * and clear button, and the shown items (an empty list renders "No feedback items found.").
   */
  datatype ListScreen =
    | Spinner
    | Listing(
        items: seq<Feedback>,
        shownCount: nat,
        totalCount: nat,
        urgentBadge: Option<nat>,
        categoryOptions: seq<FilterPanel.SelectOption>,
        clearButton: bool)

  /** The view state of the list component. */
  class ListState {
    var feedbacks: seq<Feedback>
    var loading: bool
    var searchTerm: string
    var selectedCategory: string
    var selectedSentiment: string

    /** The first render: nothing fetched, loading, no filters. */
    constructor ()
      ensures feedbacks == [] && loading
      ensures searchTerm == "" && selectedCategory == "" && selectedSentiment == ""
    {
      feedbacks := [];
      loading := true;
      searchTerm := "";
      selectedCategory := "";
      selectedSentiment := "";
    }

    function Shown(): seq<Feedback>
      reads this
    {
      Filtered(feedbacks, searchTerm, selectedCategory, selectedSentiment)
    }

    function CategoryChoices(): seq<string>
      reads this
    {
      Categories(feedbacks)
    }

    function UrgentShown(): seq<Feedback>
      reads this
    {
      Urgent(Shown())
    }

    function Screen(): (s: ListScreen)
      reads this
      ensures s.Spinner? <==> loading
      ensures s.Listing? ==> s.items == Shown() && s.totalCount == |feedbacks| && s.shownCount == |s.items| <= s.totalCount
      ensures s.Listing? ==> (s.urgentBadge.Some? <==> exists f :: f in s.items && f.sentiment == "negative")
      ensures s.Listing? && s.urgentBadge.Some? ==> s.urgentBadge.value == |Urgent(s.items)|
      ensures s.Listing? && s.urgentBadge.Some? ==> 0 < s.urgentBadge.value <= s.shownCount
      ensures s.Listing? ==> s.categoryOptions == FilterPanel.CategoryOptions(Categories(feedbacks))
      ensures s.Listing? ==> (s.clearButton <==> selectedCategory != "" || selectedSentiment != "")
    {
      if loading then Spinner
      else
        var urgent := UrgentShown();
        assert forall f :: f in urgent <==> f in Shown() && f.sentiment == "negative";
        assert urgent != [] ==> urgent[0] in urgent;
        Listing(
          Shown(), |Shown()|, |feedbacks|,
          if |urgent| > 0 then Some(|urgent|) else None,
          FilterPanel.CategoryOptions(CategoryChoices()),
          ClearButtonVisible())
    }

    /** The filter panel's clear button; the search term plays no part in it. */
    predicate ClearButtonVisible()
      reads this
    {
      FilterPanel.HasActiveFilters(selectedCategory, selectedSentiment)
    }

    /** `fetchFeedbacks` up to the request: the spinner is shown while the call is in flight. */
    method FetchStart()
      modifies this
      ensures loading
      ensures feedbacks == old(feedbacks)
      ensures searchTerm == old(searchTerm) && selectedCategory == old(selectedCategory) && selectedSentiment == old(selectedSentiment)
    {
      loading := true;
    }

    /**
     * `fetchFeedbacks` after the response: a success replaces the items, a failure keeps the
     * previous ones, and loading ends either way. The filters are kept.
     */
    method FetchFinish(response: Response<seq<Feedback>>)
      modifies this
      ensures !loading
      ensures feedbacks == (if response.Ok? then response.value else old(feedbacks))
      ensures searchTerm == old(searchTerm) && selectedCategory == old(selectedCategory) && selectedSentiment == old(selectedSentiment)
    {
      if response.Ok? {
        feedbacks := response.value;
      }
      loading := false;
    }

    /** The search box's change handler. */
    method SetSearchTerm(value: string)
      modifies this
      ensures searchTerm == value
      ensures feedbacks == old(feedbacks) && loading == old(loading)
      ensures selectedCategory == old(selectedCategory) && selectedSentiment == old(selectedSentiment)
    {
      searchTerm := value;
    }

    /** The category select's change handler. */
    method SetCategory(value: string)
      modifies this
      ensures selectedCategory == value
      ensures feedbacks == old(feedbacks) && loading == old(loading)
      ensures searchTerm == old(searchTerm) && selectedSentiment == old(selectedSentiment)
    {
      selectedCategory := value;
    }

    /** The sentiment select's change handler. */
    method SetSentiment(value: string)
      modifies this
      ensures selectedSentiment == value
      ensures feedbacks == old(feedbacks) && loading == old(loading)
      ensures searchTerm == old(searchTerm) && selectedCategory == old(selectedCategory)
    {
      selectedSentiment := value;
    }

    /** `clearFilters`: all three fields empty, after which every fetched item is shown. */
    method ClearFilters()
      modifies this
      ensures selectedCategory == "" && selectedSentiment == "" && searchTerm == ""
      ensures feedbacks == old(feedbacks) && loading == old(loading)
      ensures Shown() == feedbacks
      ensures !ClearButtonVisible()
    {
      selectedCategory := "";
      selectedSentiment := "";
      searchTerm := "";
      NoFiltersShowsAll(feedbacks);
    }
  }
}

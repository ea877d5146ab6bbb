/**
 * The filter panel (frontendFC/src/components/FilterPanel.tsx): whether the clear button is
 * shown, and the options of the category and sentiment selects.
 */
module FilterPanel {
  import opened Text

  /** One `<option>` of a select: the value it sets and the caption it shows. */
  datatype SelectOption = SelectOption(value: string, caption: string)

  const Sentiments: seq<string> := ["positive", "negative", "neutral"]

  /** `hasActiveFilters`: a category or a sentiment is selected (the panel never sees the search term). */
  predicate HasActiveFilters(selectedCategory: string, selectedSentiment: string) {
    selectedCategory != "" || selectedSentiment != ""
  }

  /** `s.charAt(0).toUpperCase() + s.slice(1)`. */
  function Capitalise(s: string): (r: string)
    ensures |r| == |s|
    ensures s != [] ==> r[0] == UpperChar(s[0]) && r[1..] == s[1..]
  {
    if s == [] then [] else [UpperChar(s[0])] + s[1..]
  }

  /** Capitalising twice is capitalising once. */
  lemma CapitaliseIdempotent(s: string)
    ensures Capitalise(Capitalise(s)) == Capitalise(s)
  {
  }

  /** Capitalising changes only letter case: the lower-cased label is the lower-cased value. */
  lemma CapitaliseKeepsLowerCase(s: string)
    ensures Lower(Capitalise(s)) == Lower(s)
  {
    if s != [] {
      LowerUpperChar(s[0]);
      assert Lower(Capitalise(s))[0] == Lower(s)[0];
      assert forall i :: 1 <= i < |s| ==> Lower(Capitalise(s))[i] == Lower(s)[i];
    }
  }

  /** The category select: "All Categories" with the empty value, then each given category. */
  function CategoryOptions(categories: seq<string>): (r: seq<SelectOption>)
    ensures |r| == |categories| + 1
    ensures r[0] == SelectOption("", "All Categories")
    ensures forall i :: 0 <= i < |categories| ==> r[i + 1] == SelectOption(categories[i], categories[i])
  {
    [SelectOption("", "All Categories")] + seq(|categories|, i requires 0 <= i < |categories| => SelectOption(categories[i], categories[i]))
  }

  /** The sentiment select: "All Sentiments" with the empty value, then the fixed sentiments, capitalised. */
  function SentimentOptions(): seq<SelectOption>
  {
    [SelectOption("", "All Sentiments")] + seq(|Sentiments|, i requires 0 <= i < |Sentiments| => SelectOption(Sentiments[i], Capitalise(Sentiments[i])))
  }

  /** The sentiment options are exactly these four, in this order. */
  lemma SentimentOptionsExactly()
    ensures SentimentOptions() == [
      SelectOption("", "All Sentiments"),
      SelectOption("positive", "Positive"),
      SelectOption("negative", "Negative"),
      SelectOption("neutral", "Neutral")]
  {
    assert Capitalise("positive") == "Positive";
    assert Capitalise("negative") == "Negative";
    assert Capitalise("neutral") == "Neutral";
  }
}

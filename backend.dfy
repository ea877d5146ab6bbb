/**
 * The FastAPI backend (Backend/backend.py): the keyword sentiment classifier, the POST
 * handler that normalises the name and stores a record, the GET handler that lists the
 * table and the statistics handler that counts records by category and by sentiment.
 * The database table is the `rows` field of `FeedbackTable`; the id the database assigns to
 * a new row is a parameter of `AddFeedback`.
 */
module Backend {
  import opened Wrappers
  import opened Text
  import opened Seqs
  import opened Dicts
  import opened Types

  const PositiveKeywords: seq<string> := [
    "good", "great", "love", "excellent", "awesome", "nice", "well done", "fantastic", "superb",
    "amazing", "improved", "satisfied", "helpful", "smooth", "fast", "positive", "brilliant",
    "wonderful", "perfect", "liked", "appreciate", "convenient", "happy", "clean"
  ]

  const NegativeKeywords: seq<string> := [
    "bad", "poor", "hate", "bug", "issue", "problem", "slow", "difficult", "not working",
    "error", "delay", "crash", "negative", "worst", "disappointed", "fail", "unsatisfied",
    "confusing", "messy", "unusable", "lag", "unhelpful", "annoying", "broken"
  ]

  /** `any(word in text for word in words)`. */
  predicate AnyKeyword(text: string, words: seq<string>) {
    exists w :: w in words && Contains(text, w)
  }

  /**
   * `analyze_sentiment`: lower-case the text, then test the negative keywords before the
   * positive ones.
   */
  function AnalyzeSentiment(text: string): (r: string)
    ensures r == "negative" || r == "positive" || r == "neutral"
  {
    var t := Lower(text);
    if AnyKeyword(t, NegativeKeywords) then "negative"
    else if AnyKeyword(t, PositiveKeywords) then "positive"
    else "neutral"
  }

  /** The classification does not depend on letter case. */
  lemma SentimentIgnoresCase(text: string)
    ensures AnalyzeSentiment(Lower(text)) == AnalyzeSentiment(text)
  {
    LowerIdempotent(text);
  }

  /** Texts that agree up to letter case get the same sentiment. */
  lemma SentimentSameUpToCase(a: string, b: string)
    requires Lower(a) == Lower(b)
    ensures AnalyzeSentiment(a) == AnalyzeSentiment(b)
  {
  }

  /** A negative keyword wins, whatever positive keywords also occur. */
  lemma NegativeHasPriority(text: string, w: string)
    requires w in NegativeKeywords && Contains(Lower(text), w)
    ensures AnalyzeSentiment(text) == "negative"
  {
  }

  /** "negative" is returned exactly when some negative keyword occurs. */
  lemma NegativeExactly(text: string)
    ensures AnalyzeSentiment(text) == "negative" <==> AnyKeyword(Lower(text), NegativeKeywords)
  {
  }

  /** "positive" is returned exactly when no negative keyword occurs and some positive one does. */
  lemma PositiveExactly(text: string)
    ensures AnalyzeSentiment(text) == "positive" <==>
      !AnyKeyword(Lower(text), NegativeKeywords) && AnyKeyword(Lower(text), PositiveKeywords)
  {
  }

  /** "neutral" is returned exactly when no keyword of either list occurs. */
  lemma NeutralExactly(text: string)
    ensures AnalyzeSentiment(text) == "neutral" <==>
      !AnyKeyword(Lower(text), NegativeKeywords) && !AnyKeyword(Lower(text), PositiveKeywords)
  {
  }

  /** The shortest keyword has three characters. */
  lemma NegativeKeywordsAtLeastThree()
    ensures forall k :: 0 <= k < |NegativeKeywords| ==> |NegativeKeywords[k]| >= 3
  {
  }

  lemma PositiveKeywordsAtLeastThree()
    ensures forall k :: 0 <= k < |PositiveKeywords| ==> |PositiveKeywords[k]| >= 3
  {
  }

  /** A text shorter than every keyword is neutral. */
  lemma ShortTextIsNeutral(text: string)
    requires |text| < 3
    ensures AnalyzeSentiment(text) == "neutral"
  {
    NegativeKeywordsAtLeastThree();
    PositiveKeywordsAtLeastThree();
    NoKeywordLongerThanText(Lower(text), NegativeKeywords);
    NoKeywordLongerThanText(Lower(text), PositiveKeywords);
  }

  lemma NoKeywordLongerThanText(t: string, words: seq<string>)
    requires forall k :: 0 <= k < |words| ==> |words[k]| > |t|
    ensures !AnyKeyword(t, words)
  {
    forall w | w in words ensures !Contains(t, w) {
      var k :| 0 <= k < |words| && words[k] == w;
      NotContainsLonger(t, w);
    }
  }

  /**
   * "Unhelpful" contains the positive keyword "helpful", yet it is negative, because the
   * negative keyword "unhelpful" is tested first.
   */
  lemma UnhelpfulIsNegative()
    ensures Contains(Lower("Unhelpful"), "helpful")
    ensures AnalyzeSentiment("Unhelpful") == "negative"
  {
    var t := Lower("Unhelpful");
    assert t == "unhelpful";
    ContainsAt(t, "helpful", 2);
    ContainsAt(t, "unhelpful", 0);
    NegativeHasPriority("Unhelpful", "unhelpful");
  }

  /**
   * Keywords are matched as substrings, not as words: "flagship" holds "lag", so a text that
   * calls a flagship great is negative.
   */
  lemma FlagshipIsNegative()
    ensures Contains(Lower("Great flagship"), "great")
    ensures AnalyzeSentiment("Great flagship") == "negative"
  {
    var t := Lower("Great flagship");
    assert t == "great flagship";
    assert t[7..10] == "lag";
    ContainsAt(t, "lag", 7);
    assert t[0..5] == "great";
    ContainsAt(t, "great", 0);
    assert NegativeKeywords[20] == "lag";
  }

  /** The request body of POST /feedback; a missing name is `None`. */
  datatype FeedbackCreate = FeedbackCreate(
    name: Option<string>,
    product: string,
    feedback: string,
    category: string)

  /** The reply of POST /feedback: a message and the computed sentiment, not the stored record. */
  datatype SubmitReply = SubmitReply(message: string, sentiment: string)

  /**
   * The stored name: a missing name defaults to "Anonymous" in the request schema, the name
   * is stripped, and an empty result falls back to "Anonymous".
   */
  function NormaliseName(name: Option<string>): (r: string)
    ensures r != []
    ensures name.None? ==> r == "Anonymous"
    ensures name.Some? && AllSpace(name.value) ==> r == "Anonymous"
    ensures name.Some? && !AllSpace(name.value) ==> r == Strip(name.value)
    ensures Strip(r) == r
  {
    var given := match name case None => "Anonymous" case Some(n) => n;
    var stripped := Strip(given);
    assert Strip("Anonymous") == "Anonymous" by {
      assert LeadingSpace("Anonymous") == 0;
      assert TrailingStart("Anonymous"[0..]) == 9;
    }
    StripIdempotent(given);
    if stripped == [] then "Anonymous" else stripped
  }

  /** The row `add_feedback` inserts for a request, given the id the database assigns. */
  function StoredRecord(item: FeedbackCreate, id: int): (f: Feedback)
    ensures f.id == id && f.name == NormaliseName(item.name)
    ensures f.product == item.product && f.feedback == item.feedback && f.category == item.category
    ensures f.sentiment == AnalyzeSentiment(item.feedback)
  {
    Feedback(id, NormaliseName(item.name), item.product, item.feedback, item.category, AnalyzeSentiment(item.feedback))
  }

  /** What every row written by `add_feedback` satisfies. */
  predicate WellFormedRow(f: Feedback) {
    f.name != [] && Strip(f.name) == f.name && f.sentiment == AnalyzeSentiment(f.feedback)
  }

  /** One more row adds one category and one sentiment, and the counters one increment each. */
  lemma PrefixStep(rows: seq<Feedback>, i: nat)
    requires i < |rows|
    ensures Tally(CategoriesOf(rows[..i + 1])) == Increment(Tally(CategoriesOf(rows[..i])), rows[i].category)
    ensures Tally(SentimentsOf(rows[..i + 1])) == Increment(Tally(SentimentsOf(rows[..i])), rows[i].sentiment)
  {
    assert CategoriesOf(rows[..i + 1]) == CategoriesOf(rows[..i]) + [rows[i].category];
    assert SentimentsOf(rows[..i + 1]) == SentimentsOf(rows[..i]) + [rows[i].sentiment];
    TallySnoc(CategoriesOf(rows[..i]), rows[i].category);
    TallySnoc(SentimentsOf(rows[..i]), rows[i].sentiment);
  }

  /** The `feedbacks` table. */
  class FeedbackTable {
    var rows: seq<Feedback>

    ghost predicate Valid()
      reads this
    {
      forall i :: 0 <= i < |rows| ==> WellFormedRow(rows[i])
    }

    constructor ()
      ensures rows == [] && Valid()
    {
      rows := [];
    }

    /** POST /feedback: classify, store one row, reply with the message and the sentiment. */
    method AddFeedback(item: FeedbackCreate, id: int) returns (reply: SubmitReply)
      modifies this
      ensures rows == old(rows) + [StoredRecord(item, id)]
      ensures old(Valid()) ==> Valid()
      ensures reply == SubmitReply("Feedback submitted", AnalyzeSentiment(item.feedback))
    {
      var sentiment := AnalyzeSentiment(item.feedback);
      var fb := Feedback(id, NormaliseName(item.name), item.product, item.feedback, item.category, sentiment);
      rows := rows + [fb];
      reply := SubmitReply("Feedback submitted", sentiment);
    }

    /** GET /feedback: every row, in table order. */
    method GetFeedback() returns (all: seq<Feedback>)
      ensures all == rows
    {
      all := rows;
    }

    /**
     * GET /stats: `total` is the number of rows, and one pass over the rows adds one to the
     * row's category counter and one to its sentiment counter.
     */
    method GetStats() returns (stats: FeedbackStats)
      ensures stats.total == |rows|
      ensures stats.byCategory == Tally(CategoriesOf(rows))
      ensures stats.bySentiment == Tally(SentimentsOf(rows))
      ensures Sum(stats.byCategory) == stats.total && Sum(stats.bySentiment) == stats.total
      ensures Keys(stats.byCategory) == Distinct(CategoriesOf(rows))
      ensures Keys(stats.bySentiment) == Distinct(SentimentsOf(rows))
      ensures AllPositive(stats.byCategory) && AllPositive(stats.bySentiment)
      ensures forall k :: Get(stats.byCategory, k, 0) == multiset(CategoriesOf(rows))[k]
      ensures forall k :: Get(stats.bySentiment, k, 0) == multiset(SentimentsOf(rows))[k]
    {
      var all := rows;
      var total := |all|;
      var byCategory: Dict := [];
      var bySentiment: Dict := [];
      var i := 0;
      while i < |all|
        invariant 0 <= i <= |all|
        invariant byCategory == Tally(CategoriesOf(all[..i]))
        invariant bySentiment == Tally(SentimentsOf(all[..i]))
      {
        var fb := all[i];
        PrefixStep(all, i);
        byCategory := Increment(byCategory, fb.category);
        bySentiment := Increment(bySentiment, fb.sentiment);
        i := i + 1;
      }
      assert all[..i] == all;
      stats := FeedbackStats(total, byCategory, bySentiment);
      TallyShape(CategoriesOf(all));
      TallyShape(SentimentsOf(all));
      TallyCounts(CategoriesOf(all));
      TallyCounts(SentimentsOf(all));
    }
  }
}

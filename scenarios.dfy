/**
 * Properties that join the components: the statistics the backend computes as the dashboard
 * renders them, the categories the list offers against those the backend counts, the form's
 * success callback wired to the root's refresh counter, and the two worked scenarios of the
 * system (a submission end to end, and a statistics snapshot on the dashboard).
 */
module Scenarios {
  import opened Wrappers
  import opened Text
  import opened Seqs
  import opened Dicts
  import opened Types
  import opened Backend
  import FeedbackList
  import FeedbackForm
  import Dashboard
  import App

  /** The snapshot GET /stats returns for a table holding exactly `rows`. */
  function StatsOf(rows: seq<Feedback>): (st: FeedbackStats)
    ensures st.total == |rows| && Sum(st.byCategory) == st.total && Sum(st.bySentiment) == st.total
  {
    TallyShape(CategoriesOf(rows));
    TallyShape(SentimentsOf(rows));
    FeedbackStats(|rows|, Tally(CategoriesOf(rows)), Tally(SentimentsOf(rows)))
  }

  /** When every sentiment is one of the three, their counts add up to the length. */
  lemma {:induction false} ThreeSentimentsCover(s: seq<string>)
    requires forall i :: 0 <= i < |s| ==> s[i] == "positive" || s[i] == "negative" || s[i] == "neutral"
    ensures multiset(s)["positive"] + multiset(s)["negative"] + multiset(s)["neutral"] == |s|
  {
    if s != [] {
      var p := s[..|s| - 1];
      assert s == p + [s[|s| - 1]];
      ThreeSentimentsCover(p);
    }
  }

  /**
   * On rows written by POST /feedback, the positive, negative and neutral tiles add up to the
   * total tile.
   */
  lemma SentimentTilesCoverTotal(rows: seq<Feedback>)
    requires forall i :: 0 <= i < |rows| ==> WellFormedRow(rows[i])
    ensures Dashboard.TilesOf(StatsOf(rows)).positive + Dashboard.TilesOf(StatsOf(rows)).negative
      + Dashboard.TilesOf(StatsOf(rows)).neutral == Dashboard.TilesOf(StatsOf(rows)).total
  {
    var s := SentimentsOf(rows);
    forall i | 0 <= i < |s| ensures s[i] == "positive" || s[i] == "negative" || s[i] == "neutral" {
      assert s[i] == AnalyzeSentiment(rows[i].feedback);
    }
    ThreeSentimentsCover(s);
    TallyCount(s, "positive");
    TallyCount(s, "negative");
    TallyCount(s, "neutral");
  }

  /** With positive counts, each count is at most the sum. */
  lemma {:induction false} CountAtMostSum(d: Dict, i: int)
    requires AllPositive(d) && 0 <= i < |d|
    ensures 0 < d[i].count <= Sum(d)
  {
    if i > 0 {
      CountAtMostSum(d[1..], i - 1);
    } else if |d| > 1 {
      CountAtMostSum(d[1..], 0);
    }
  }

  /**
   * Every breakdown row of a backend snapshot has 0 < count <= total, so the percentage the
   * bar divides out is in (0, 100]; with total 0 both breakdowns are empty and no row divides.
   */
  lemma PercentagesWellDefined(rows: seq<Feedback>)
    ensures forall i :: 0 <= i < |StatsOf(rows).byCategory| ==>
      0 < StatsOf(rows).byCategory[i].count <= StatsOf(rows).total
    ensures forall i :: 0 <= i < |StatsOf(rows).bySentiment| ==>
      0 < StatsOf(rows).bySentiment[i].count <= StatsOf(rows).total
    ensures StatsOf(rows).total == 0 ==> StatsOf(rows).byCategory == [] && StatsOf(rows).bySentiment == []
  {
    var st := StatsOf(rows);
    TallyShape(CategoriesOf(rows));
    TallyShape(SentimentsOf(rows));
    forall i | 0 <= i < |st.byCategory| ensures 0 < st.byCategory[i].count <= st.total {
      CountAtMostSum(st.byCategory, i);
    }
    forall i | 0 <= i < |st.bySentiment| ensures 0 < st.bySentiment[i].count <= st.total {
      CountAtMostSum(st.bySentiment, i);
    }
    if st.total == 0 {
      if st.byCategory != [] {
        CountAtMostSum(st.byCategory, 0);
      }
      if st.bySentiment != [] {
        CountAtMostSum(st.bySentiment, 0);
      }
    }
  }

  /**
   * The list's category options are the categories the dashboard's breakdown shows, in the
   * same order, when both views read the table's rows in the same order and the breakdown
   * keeps the backend's key order.
   */
  lemma ListAndDashboardCategoriesAgree(rows: seq<Feedback>)
    ensures FeedbackList.Categories(rows) == Keys(StatsOf(rows).byCategory)
  {
    TallyShape(CategoriesOf(rows));
  }

  /**
   * GET /stats fed straight into the dashboard's tiles: they count the table's rows and, on a
   * valid table, the three sentiment tiles add up to the total.
   */
  method DashboardTilesOfTable(table: FeedbackTable) returns (tiles: Dashboard.Tiles)
    requires table.Valid()
    ensures tiles == Dashboard.TilesOf(StatsOf(table.rows))
    ensures tiles.total == |table.rows|
    ensures tiles.positive + tiles.negative + tiles.neutral == tiles.total
    ensures tiles.positive >= 0 && tiles.negative >= 0 && tiles.neutral >= 0
  {
    var stats := table.GetStats();
    tiles := Dashboard.TilesOf(stats);
    SentimentTilesCoverTotal(table.rows);
  }

  /** The body `submitFeedback` posts: the form's four fields, the name always present. */
  function RequestOf(s: FeedbackSubmission): (item: FeedbackCreate)
    ensures item.name == Some(s.name)
    ensures item.product == s.product && item.feedback == s.feedback && item.category == s.category
  {
    FeedbackCreate(Some(s.name), s.product, s.feedback, s.category)
  }

  /** An empty or all-blank name in the form is stored as "Anonymous". */
  lemma BlankNameStoredAsAnonymous(s: FeedbackSubmission, id: int)
    requires AllSpace(s.name)
    ensures StoredRecord(RequestOf(s), id).name == "Anonymous"
  {
  }

  /**
   * The form's `onSubmitSuccess` is the root's `handleFeedbackSubmit`: the refresh counter
   * goes up by exactly one per successful submission and stays put on a failed one.
   */
  method CompleteSubmission(form: FeedbackForm.FormState, app: App.AppState, succeeded: bool)
    modifies form, app
    ensures app.refreshKey == old(app.refreshKey) + (if succeeded then 1 else 0)
    ensures app.activeTab == old(app.activeTab)
    ensures succeeded ==> form.formData == FeedbackForm.EmptyForm && form.BannerVisible()
    ensures succeeded ==> form.pendingDismissals == old(form.pendingDismissals) + 1
    ensures !succeeded ==> form.formData == old(form.formData)
    ensures !form.isSubmitting
  {
    var notified := form.Complete(succeeded);
    if notified {
      app.HandleFeedbackSubmit();
    }
  }

  const ExampleText: string := "This is great!"

  lemma HateAbsentFromExample()
    ensures !Contains(Lower(ExampleText), "hate")
  {
    var t := Lower(ExampleText);
    assert t == "this is great!";
    forall i: nat | i <= |t| ensures !OccursAt(t, "hate", i) {
      if i + 4 <= |t| {
        assert t[i..i + 4][0] == t[i];
        if i != 1 {
          assert t[i] != 'h';
        } else {
          assert t[i + 1] != 'a';
        }
      }
    }
  }

  /** Each of the remaining negative keywords has a letter the example text lacks. */
  lemma NegativeKeywordsAbsentA()
    ensures forall k :: 0 <= k < 8 ==> !Contains(Lower(ExampleText), NegativeKeywords[k])
  {
    var t := Lower(ExampleText);
    assert t == "this is great!";
    NotContainsMissingChar(t, "bad", 'b');
    NotContainsMissingChar(t, "poor", 'p');
    HateAbsentFromExample();
    NotContainsMissingChar(t, "bug", 'b');
    NotContainsMissingChar(t, "issue", 'u');
    NotContainsMissingChar(t, "problem", 'p');
    NotContainsMissingChar(t, "slow", 'l');
    NotContainsMissingChar(t, "difficult", 'd');
  }

  lemma NegativeKeywordsAbsentB()
    ensures forall k :: 8 <= k < 16 ==> !Contains(Lower(ExampleText), NegativeKeywords[k])
  {
    var t := Lower(ExampleText);
    assert t == "this is great!";
    NotContainsMissingChar(t, "not working", 'n');
    NotContainsMissingChar(t, "error", 'o');
    NotContainsMissingChar(t, "delay", 'l');
    NotContainsMissingChar(t, "crash", 'c');
    NotContainsMissingChar(t, "negative", 'n');
    NotContainsMissingChar(t, "worst", 'o');
    NotContainsMissingChar(t, "disappointed", 'd');
    NotContainsMissingChar(t, "fail", 'l');
  }

  lemma NegativeKeywordsAbsentC()
    ensures forall k :: 16 <= k < 20 ==> !Contains(Lower(ExampleText), NegativeKeywords[k])
  {
    var t := Lower(ExampleText);
    assert t == "this is great!";
    NotContainsMissingChar(t, "unsatisfied", 'u');
    NotContainsMissingChar(t, "confusing", 'c');
    NotContainsMissingChar(t, "messy", 'm');
    NotContainsMissingChar(t, "unusable", 'u');
  }

  lemma NegativeKeywordsAbsentD()
    ensures forall k :: 20 <= k < 24 ==> !Contains(Lower(ExampleText), NegativeKeywords[k])
  {
    var t := Lower(ExampleText);
    assert t == "this is great!";
    NotContainsMissingChar(t, "lag", 'l');
    NotContainsMissingChar(t, "unhelpful", 'u');
    NotContainsMissingChar(t, "annoying", 'n');
    NotContainsMissingChar(t, "broken", 'b');
  }

  /** "This is great!" holds the positive keyword "great" and no negative keyword. */
  lemma ExampleTextIsPositive()
    ensures AnalyzeSentiment(ExampleText) == "positive"
  {
    var t := Lower(ExampleText);
    assert t == "this is great!";
    NegativeKeywordsAbsentA();
    NegativeKeywordsAbsentB();
    NegativeKeywordsAbsentC();
    NegativeKeywordsAbsentD();
    forall w | w in NegativeKeywords ensures !Contains(t, w) {
      var k :| 0 <= k < |NegativeKeywords| && NegativeKeywords[k] == w;
    }
    ContainsAt(t, "great", 8);
    assert PositiveKeywords[1] == "great";
  }

  const AshaForm: FeedbackSubmission := FeedbackSubmission("Asha", "Billing System", ExampleText, "General Feedback")

  /** The row POST /feedback stores for Asha's form, given id 1. */
  lemma AshaRecord()
    ensures StoredRecord(RequestOf(AshaForm), 1) == Feedback(1, "Asha", "Billing System", ExampleText, "General Feedback", "positive")
  {
    assert Strip("Asha") == "Asha" by {
      assert LeadingSpace("Asha") == 0;
      assert TrailingStart("Asha"[0..]) == 4;
    }
    ExampleTextIsPositive();
  }

  /** A fresh form into which Asha has typed her four fields. */
  method AshaFillsForm() returns (form: FeedbackForm.FormState)
    ensures fresh(form)
    ensures form.formData == AshaForm && !form.isSubmitting && !form.submitSuccess && form.pendingDismissals == 0
  {
    form := new FeedbackForm.FormState();
    form.Edit(FeedbackForm.NameField, "Asha");
    form.Edit(FeedbackForm.ProductField, "Billing System");
    form.Edit(FeedbackForm.FeedbackField, ExampleText);
    form.Edit(FeedbackForm.CategoryField, "General Feedback");
  }

  /**
   * The submission scenario: Asha submits positive feedback from the "submit" tab. The table
   * stores it with the id the database assigns (1), the reply carries "positive", the form is
   * cleared and shows the banner until its timer fires, the refresh counter becomes 1, and the
   * list that fetches again afterwards shows the new record.
   */
  method AshaSubmission() returns (reply: SubmitReply, listed: seq<Feedback>, cleared: bool,
                                   bannerShown: bool, bannerAfterTimer: bool, refreshKey: nat)
    ensures reply == SubmitReply("Feedback submitted", "positive")
    ensures listed == [Feedback(1, "Asha", "Billing System", ExampleText, "General Feedback", "positive")]
    ensures cleared && bannerShown && !bannerAfterTimer
    ensures refreshKey == 1
  {
    var app := new App.AppState();
    app.SetActiveTab("submit");
    var form := AshaFillsForm();
    var request := form.Submit();
    var all;
    reply, all := StoreInEmptyTable(request.value);
    AshaRecord();
    CompleteSubmission(form, app, true);
    cleared := form.formData == FeedbackForm.EmptyForm;
    bannerShown := form.BannerVisible();
    form.DismissBanner();
    bannerAfterTimer := form.BannerVisible();
    refreshKey := app.refreshKey;
    listed := FetchIntoNewList(all);
  }

  /** POST /feedback on an empty table with id 1, then GET /feedback. */
  method StoreInEmptyTable(s: FeedbackSubmission) returns (reply: SubmitReply, all: seq<Feedback>)
    ensures reply == SubmitReply("Feedback submitted", AnalyzeSentiment(s.feedback))
    ensures all == [StoredRecord(RequestOf(s), 1)]
  {
    var table := new FeedbackTable();
    reply := table.AddFeedback(RequestOf(s), 1);
    all := table.GetFeedback();
  }

  /** A list mounted afresh whose fetch succeeds shows every fetched item, in order. */
  method FetchIntoNewList(items: seq<Feedback>) returns (shown: seq<Feedback>)
    ensures shown == items
  {
    var list := new FeedbackList.ListState();
    list.FetchFinish(Ok(items));
    FeedbackList.NoFiltersShowsAll(list.feedbacks);
    shown := list.Shown();
  }

  /** Submitting with the product left empty sends no request. */
  method EmptyProductSendsNothing() returns (request: Option<FeedbackSubmission>, submitting: bool)
    ensures request == None && !submitting
  {
    var form := new FeedbackForm.FormState();
    form.Edit(FeedbackForm.FeedbackField, ExampleText);
    form.Edit(FeedbackForm.CategoryField, "Other");
    request := form.Submit();
    submitting := form.isSubmitting;
  }

  /** The statistics scenario: 10 items, 4 bug reports and 6 others, 3/2/5 by sentiment. */
  const ExampleStats: FeedbackStats := FeedbackStats(
    10,
    [Entry("Bug Report", 4), Entry("Other", 6)],
    [Entry("positive", 3), Entry("negative", 2), Entry("neutral", 5)])

  /** The dashboard for that snapshot: its tiles, its rows, and the alert for 2 negative items. */
  lemma ExampleDashboard()
    ensures Dashboard.OverviewOf(ExampleStats) == Dashboard.Overview(
      Dashboard.Tiles(10, 3, 2, 5),
      [Dashboard.Row("Bug Report", 4), Dashboard.Row("Other", 6)],
      [Dashboard.Row("positive", 3), Dashboard.Row("negative", 2), Dashboard.Row("neutral", 5)],
      Some(Dashboard.AlertText(2)))
  {
    var sentiments := ExampleStats.bySentiment;
    assert Keys(sentiments) == ["positive", "negative", "neutral"];
    assert IndexOf(Keys(sentiments), "positive") == 0;
    assert IndexOf(Keys(sentiments), "negative") == 1;
    assert IndexOf(Keys(sentiments), "neutral") == 2;
    assert Dashboard.SentimentCount(ExampleStats, "positive") == 3;
    assert Dashboard.SentimentCount(ExampleStats, "negative") == 2;
    assert Dashboard.SentimentCount(ExampleStats, "neutral") == 5;
    assert Dashboard.RowsOf(ExampleStats.byCategory) == [Dashboard.Row("Bug Report", 4), Dashboard.Row("Other", 6)];
    assert Dashboard.RowsOf(sentiments) == [Dashboard.Row("positive", 3), Dashboard.Row("negative", 2), Dashboard.Row("neutral", 5)];
  }

  /** The dashboard after fetching that snapshot shows the alert, with "2" and the plural "items". */
  method ExampleDashboardScreen() returns (screen: Dashboard.Screen)
    ensures screen == Dashboard.OverviewOf(ExampleStats) && screen.alert.Some?
    ensures Contains(screen.alert.value, "2")
    ensures Dashboard.EndsWith(screen.alert.value, Dashboard.PluralTail)
  {
    var dashboard := new Dashboard.DashboardState();
    dashboard.FetchFinish(Ok(ExampleStats));
    screen := dashboard.View();
    ExampleDashboard();
    Dashboard.AlertTextNamesCount(2);
    Dashboard.AlertTextPlural(2);
    assert NatToString(2) == "2";
  }
}

/**
 * The dashboard (frontend/src/components/Dashboard.tsx): a statistics snapshot fetched once
 * on mount, four summary tiles whose sentiment counts default to 0, one row per category
 * entry and per sentiment entry, and an alert when there is negative feedback.
 */
module Dashboard {
  import opened Wrappers
  import opened Text
  import opened Seqs
  import opened Dicts
  import opened Types

  /** `stats.by_sentiment[s] || 0`: the stored count, or 0 when the sentiment is absent. */
  function SentimentCount(stats: FeedbackStats, sentiment: string): (n: int)
    ensures sentiment !in Keys(stats.bySentiment) ==> n == 0
    ensures sentiment in Keys(stats.bySentiment) ==> n == stats.bySentiment[IndexOf(Keys(stats.bySentiment), sentiment)].count
  {
    GetSpec(stats.bySentiment, sentiment, 0);
    Get(stats.bySentiment, sentiment, 0)
  }

  /** The four summary tiles. */
  datatype Tiles = Tiles(total: int, positive: int, negative: int, neutral: int)

  /** The count a sentiment tile shows: the stored count, or 0 when the sentiment is absent. */
  predicate TileShows(stats: FeedbackStats, sentiment: string, n: int) {
    n == (if sentiment in Keys(stats.bySentiment)
          then stats.bySentiment[IndexOf(Keys(stats.bySentiment), sentiment)].count
          else 0)
  }

  /** The total tile shows the snapshot's total; each sentiment tile its count, 0 by default. */
  function TilesOf(stats: FeedbackStats): (t: Tiles)
    ensures t.total == stats.total
    ensures TileShows(stats, "positive", t.positive)
    ensures TileShows(stats, "negative", t.negative)
    ensures TileShows(stats, "neutral", t.neutral)
  {
    Tiles(stats.total, SentimentCount(stats, "positive"), SentimentCount(stats, "negative"), SentimentCount(stats, "neutral"))
  }

  /** A breakdown row: its label and the count printed beside the bar. */
  datatype Row = Row(name: string, count: int)

  /** `Object.entries(m).map(...)`: one row per entry, in the entries' order. */
  function RowsOf(d: Dict): (rows: seq<Row>)
    ensures |rows| == |d|
    ensures forall i :: 0 <= i < |d| ==> rows[i].name == d[i].key && rows[i].count == d[i].count
  {
    seq(|d|, i requires 0 <= i < |d| => Row(d[i].key, d[i].count))
  }

  /**
   * `stats.by_sentiment.negative > 0`. An absent key reads as `undefined`, which is not
   * greater than 0, so the test agrees with the tile's default of 0.
   */
  predicate ShowsAlert(stats: FeedbackStats) {
    "negative" in Keys(stats.bySentiment) && Get(stats.bySentiment, "negative", 0) > 0
  }

  lemma {:induction false} AlertWhenNegativeTilePositive(stats: FeedbackStats)
    ensures ShowsAlert(stats) <==> TilesOf(stats).negative > 0
  {
  }

  /** The alert's sentence after the noun. */
  const AlertRest: string := " that may need immediate attention."

  /** The alert's sentence up to the noun. */
  function AlertLead(n: nat): string
  {
    "You have " + NatToString(n) + " negative feedback "
  }

  /**
   * The alert's sentence: "item", then the plural "s" when there is more than one, with the
   * JSX line breaks collapsed as React renders them.
   */
  function AlertText(n: nat): (r: string)
    ensures |r| >= 9 && r[..9] == "You have " && EndsWith(r, AlertRest)
  {
    AlertLead(n) + "item" + (if n > 1 then "s" else "") + AlertRest
  }

  predicate EndsWith(s: string, suffix: string) {
    |suffix| <= |s| && s[|s| - |suffix|..] == suffix
  }

  /** The end of the sentence in the plural. */
  const PluralTail: string := "items" + AlertRest

  /** The alert text says "items" exactly when the count exceeds one. */
  lemma AlertTextPlural(n: nat)
    ensures EndsWith(AlertText(n), PluralTail) <==> n > 1
  {
    if n > 1 {
      AlertTextMany(n);
    } else {
      AlertTextOne(n);
    }
  }

  lemma AlertTextMany(n: nat)
    requires n > 1
    ensures EndsWith(AlertText(n), PluralTail)
  {
    var a := AlertLead(n);
    assert "item" + "s" == "items";
    assert AlertText(n) == a + PluralTail;
    assert (a + PluralTail)[|a|..] == PluralTail;
  }

  lemma AlertTextOne(n: nat)
    requires n <= 1
    ensures !EndsWith(AlertText(n), PluralTail)
  {
    var a := AlertLead(n);
    var t := AlertText(n);
    assert t == a + ("item" + AlertRest);
    assert a[|a| - 1] == ' ';
    assert |t| - |PluralTail| == |a| - 1;
    assert t[|a| - 1] == ' ' != PluralTail[0];
  }

  /** The alert text names the negative count. */
  lemma AlertTextNamesCount(n: nat)
    ensures Contains(AlertText(n), NatToString(n))
  {
    var t := AlertText(n);
    assert t[9..9 + |NatToString(n)|] == NatToString(n);
    ContainsAt(t, NatToString(n), 9);
  }

  /** What the component renders. */
  datatype Screen =
    | Spinner
    | Unavailable
    | Overview(tiles: Tiles, categoryRows: seq<Row>, sentimentRows: seq<Row>, alert: Option<string>)

  /** The overview for a loaded snapshot. */
  function OverviewOf(stats: FeedbackStats): (s: Screen)
    ensures s.Overview?
    ensures s.tiles.total == stats.total
    ensures s.tiles.positive == SentimentCount(stats, "positive")
    ensures s.tiles.negative == SentimentCount(stats, "negative")
    ensures s.tiles.neutral == SentimentCount(stats, "neutral")
    ensures s.categoryRows == RowsOf(stats.byCategory) && s.sentimentRows == RowsOf(stats.bySentiment)
    ensures s.alert.Some? <==> SentimentCount(stats, "negative") > 0
    ensures s.alert.Some? ==> s.alert.value == AlertText(SentimentCount(stats, "negative"))
  {
    AlertWhenNegativeTilePositive(stats);
    var negative := Get(stats.bySentiment, "negative", 0);
    Overview(
      TilesOf(stats),
      RowsOf(stats.byCategory),
      RowsOf(stats.bySentiment),
      if ShowsAlert(stats) then Some(AlertText(negative)) else None)
  }

  class DashboardState {
    var stats: Option<FeedbackStats>
    var loading: bool

    /** The first render: no snapshot, loading. */
    constructor ()
      ensures stats == None && loading
    {
      stats := None;
      loading := true;
    }

    /** `fetchStats` once the response is in: a success stores the snapshot; loading ends either way. */
    method FetchFinish(response: Response<FeedbackStats>)
      modifies this
      ensures !loading
      ensures stats == (if response.Ok? then Some(response.value) else old(stats))
    {
      if response.Ok? {
        stats := Some(response.value);
      }
      loading := false;
    }

    /** A spinner while loading, "Unable to load statistics" without a snapshot, else the overview. */
    function View(): (s: Screen)
      reads this
      ensures s.Spinner? <==> loading
      ensures s.Unavailable? <==> !loading && stats.None?
      ensures s.Overview? ==> stats.Some? && s == OverviewOf(stats.value)
    {
      if loading then Spinner
      else if stats.None? then Unavailable
      else OverviewOf(stats.value)
    }
  }
}

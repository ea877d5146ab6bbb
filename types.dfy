/**
 * The records exchanged between the backend and the views: a stored feedback item, the
 * statistics snapshot and the form's submission. Sentiment and category are plain strings,
 * and the two statistics maps are string-to-number maps, as in frontend/src/types/feedback.ts.
 */
module Types {
  import opened Dicts

  datatype Feedback = Feedback(
    id: int,
    name: string,
    product: string,
    feedback: string,
    category: string,
    sentiment: string)

  datatype FeedbackStats = FeedbackStats(total: int, byCategory: Dict, bySentiment: Dict)

  datatype FeedbackSubmission = FeedbackSubmission(
    name: string,
    product: string,
    feedback: string,
    category: string)

  /** The outcome of one API call: the decoded body, or the single error kind the client raises. */
  datatype Response<+T> = Ok(value: T) | RequestError

  /** The category of each item, in order (`feedbacks.map(f => f.category)`). */
  function CategoriesOf(fs: seq<Feedback>): (r: seq<string>)
    ensures |r| == |fs|
    ensures forall i :: 0 <= i < |fs| ==> r[i] == fs[i].category
  {
    seq(|fs|, i requires 0 <= i < |fs| => fs[i].category)
  }

  /** The sentiment of each item, in order. */
  function SentimentsOf(fs: seq<Feedback>): (r: seq<string>)
    ensures |r| == |fs|
    ensures forall i :: 0 <= i < |fs| ==> r[i] == fs[i].sentiment
  {
    seq(|fs|, i requires 0 <= i < |fs| => fs[i].sentiment)
  }
}

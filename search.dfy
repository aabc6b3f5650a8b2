/** `TaskPlanningAgent.web_search`: turning the search service's decoded
    answer into one text for the model.

    The HTTP request and its JSON decoding are not modelled: the decoded
    answer (or the text of the exception raised while fetching or decoding
    it) is an input. */
module Search {
  import opened Wrappers
  import opened Text
  import opened Json

  /** One entry of `RelatedTopics`: whether it is a dict, and its `Text`
      entry when it has one. */
  datatype Topic = Topic(isDict: bool, text: Option<string>)

  /** The search service's answer. A missing `Abstract` or `Answer` is the
      empty string and a missing `RelatedTopics` the empty list: all three
      are falsy in the same way. */
  datatype SearchReply =
    | Decoded(abstractText: string, related: seq<Topic>, answer: string)
      /** the request or `response.json()` raised, or the body was not an
          object, with this exception text */
    | Failed(error: string)

  const SummaryPrefix := "Summary: "
  const AnswerPrefix := "Answer: "
  const NoInformation := "No specific information found for: "
  const SearchErrorPrefix := "Search error: "
  /** What Python says when a slice bound is neither an integer nor `None`. */
  const SliceIndexError := "slice indices must be integers or None or have an __index__ method"

  /** The bound of the slice `RelatedTopics[:num_results]`. */
  datatype Bound = UpTo(n: int) | Whole | NotAnIndex

  /** How Python reads `num_results` as a slice bound: integers and booleans
      are indices, `None` means no bound, anything else raises. */
  function SliceBound(numResults: Value): Bound
  {
    match numResults
    case Int(n) => UpTo(n)
    case Bool(b) => UpTo(if b then 1 else 0)
    case Null => Whole
    case Str(_) => NotAnIndex
    case Other(_) => NotAnIndex
  }

  /** Python's `xs[:n]`: a negative bound counts back from the end. */
  function PyPrefix<T>(xs: seq<T>, n: int): seq<T>
  {
    if 0 <= n then xs[..if n < |xs| then n else |xs|]
    else xs[..if |xs| + n < 0 then 0 else |xs| + n]
  }

  /** The slice is a prefix: `min(n, len)` long for a non-negative bound,
      and short of the end by a negative one. */
  lemma PyPrefixShape<T>(xs: seq<T>, n: int)
    ensures PyPrefix(xs, n) <= xs
    ensures 0 <= n ==> |PyPrefix(xs, n)| == if n < |xs| then n else |xs|
    ensures n < 0 ==> |PyPrefix(xs, n)| == if |xs| + n < 0 then 0 else |xs| + n
  {
  }

  /** The `RelatedTopics` entries the loop looks at: none when the list is
      empty (the slice is then never taken), else the slice. */
  function Examined(related: seq<Topic>, numResults: Value): Result<seq<Topic>>
  {
    if related == [] then Ok([])
    else match SliceBound(numResults)
      case UpTo(n) => Ok(PyPrefix(related, n))
      case Whole => Ok(related)
      case NotAnIndex => Err(SliceIndexError)
  }

  /** The examined entries are a prefix of `RelatedTopics`, at most
      `num_results` of them for a non-negative integer bound (exactly the
      first `num_results` when the list is longer) and all of them
      for a bound of at least the list's length or `None`; the slice raises
      exactly when the list is non-empty and the bound is not an index. */
  lemma ExaminedWindow(related: seq<Topic>, numResults: Value)
    ensures var r := Examined(related, numResults);
            && (r.Ok? ==> r.value <= related)
            && (r.Err? <==> related != [] && SliceBound(numResults).NotAnIndex?)
            && (r.Ok? && numResults.Int? && 0 <= numResults.i ==> |r.value| <= numResults.i)
            && (numResults.Int? && 0 <= numResults.i < |related| ==> r == Ok(related[..numResults.i]))
            && (numResults.Int? && numResults.i >= |related| ==> r == Ok(related))
            && (numResults.Null? ==> r == Ok(related))
  {
    if related != [] && SliceBound(numResults).UpTo? {
      PyPrefixShape(related, SliceBound(numResults).n);
      assert related[..|related|] == related;
    }
  }

  /** An entry contributes when it is a dict with a `Text` entry. */
  predicate Contributes(t: Topic)
  {
    t.isDict && t.text.Some?
  }

  /** The texts of the contributing entries, in order. */
  function TopicTexts(topics: seq<Topic>): (r: seq<string>)
    ensures |r| <= |topics|
  {
    if topics == [] then []
    else (if Contributes(topics[0]) then [topics[0].text.value] else []) + TopicTexts(topics[1..])
  }

  /** The piece the abstract contributes: nothing when it is empty. */
  function SummaryPiece(abstractText: string): seq<string>
  {
    if abstractText != "" then [SummaryPrefix + abstractText] else []
  }

  /** The piece the instant answer contributes: nothing when it is empty. */
  function AnswerPiece(answer: string): seq<string>
  {
    if answer != "" then [AnswerPrefix + answer] else []
  }

  /** The list `results` the source builds, or the exception the slice raises. */
  function Pieces(numResults: Value, abstractText: string, related: seq<Topic>, answer: string): Result<seq<string>>
  {
    match Examined(related, numResults)
    case Err(e) => Err(e)
    case Ok(window) => Ok(SummaryPiece(abstractText) + TopicTexts(window) + AnswerPiece(answer))
  }

  /** The final `return`: the pieces joined by newlines, or the sentinel
      naming the query when there are none. */
  function JoinOrSentinel(query: Value, pieces: seq<string>): string
  {
    if pieces != [] then Join(pieces, "\n") else NoInformation + Json.Render(query)
  }

  /** What `web_search(query, num_results)` returns for a given answer. */
  function SearchText(query: Value, numResults: Value, reply: SearchReply): string
  {
    match reply
    case Failed(e) => SearchErrorPrefix + e
    case Decoded(abstractText, related, answer) =>
      match Pieces(numResults, abstractText, related, answer)
      case Err(e) => SearchErrorPrefix + e
      case Ok(pieces) => JoinOrSentinel(query, pieces)
  }

  /** `web_search`, step by step as the source does it: build the list of
      pieces, then join it; any exception becomes the error text. */
  method WebSearch(query: Value, numResults: Value, reply: SearchReply) returns (text: string)
    ensures text == SearchText(query, numResults, reply)
  {
    if reply.Failed? {
      return SearchErrorPrefix + reply.error;
    }
    var results := CollectPieces(numResults, reply.abstractText, reply.related, reply.answer);
    if results.Err? {
      return SearchErrorPrefix + results.error;
    }
    text := JoinOrSentinel(query, results.value);
  }

  /** The body of the `try` up to the join: grow the list `results` with
      the summary, the texts of the examined related topics and the answer,
      or raise while slicing. */
  method CollectPieces(numResults: Value, abstractText: string, related: seq<Topic>, answer: string)
    returns (outcome: Result<seq<string>>)
    ensures outcome == Pieces(numResults, abstractText, related, answer)
  {
    var results: seq<string> := [];
    if abstractText != "" {
      results := results + [SummaryPrefix + abstractText];
    }
    var window: seq<Topic> := [];
    if related != [] {
      var examined := Examined(related, numResults);
      if examined.Err? {
        return Err(examined.error);
      }
      window := examined.value;
      results := AppendTopicTexts(results, window);
    }
    assert Examined(related, numResults) == Ok(window);
    ghost var found := results;
    assert found == SummaryPiece(abstractText) + TopicTexts(window);
    if answer != "" {
      results := results + [AnswerPrefix + answer];
    }
    assert results == found + AnswerPiece(answer);
    outcome := Ok(results);
  }

  /** The loop over the examined `RelatedTopics` entries: append the `Text`
      of every entry that is a dict and has one. */
  method AppendTopicTexts(results: seq<string>, window: seq<Topic>) returns (extended: seq<string>)
    ensures extended == results + TopicTexts(window)
  {
    extended := results;
    var i := 0;
    while i < |window|
      invariant 0 <= i <= |window|
      invariant extended == results + TopicTexts(window[..i])
    {
      var topic := window[i];
      if topic.isDict && topic.text.Some? {
        extended := extended + [topic.text.value];
      }
      TopicTextsConcat(window[..i], [topic]);
      assert window[..i + 1] == window[..i] + [topic];
      i := i + 1;
    }
    assert window[..|window|] == window;
  }

  /** Filtering keeps the order: the texts of a concatenation are the texts
      of each part, one after the other. */
  lemma {:induction false} TopicTextsConcat(a: seq<Topic>, b: seq<Topic>)
    ensures TopicTexts(a + b) == TopicTexts(a) + TopicTexts(b)
  {
    if a == [] {
      assert a + b == b;
    } else {
      assert (a + b)[0] == a[0];
      assert (a + b)[1..] == a[1..] + b;
      TopicTextsConcat(a[1..], b);
    }
  }

  /** Exactly the texts of the contributing entries come through. */
  lemma {:induction false} TopicTextsMembers(topics: seq<Topic>, t: string)
    ensures t in TopicTexts(topics) <==>
            exists k :: 0 <= k < |topics| && Contributes(topics[k]) && topics[k].text.value == t
  {
    if topics != [] {
      TopicTextsMembers(topics[1..], t);
      if t in TopicTexts(topics[1..]) {
        var k :| 0 < k + 1 < |topics| && Contributes(topics[1..][k]) && topics[1..][k].text.value == t;
        assert topics[k + 1] == topics[1..][k];
      }
      if exists k :: 0 <= k < |topics| && Contributes(topics[k]) && topics[k].text.value == t {
        var k :| 0 <= k < |topics| && Contributes(topics[k]) && topics[k].text.value == t;
        if k > 0 {
          assert topics[1..][k - 1] == topics[k];
        }
      }
    }
  }

  /** Nothing comes through exactly when no entry contributes. */
  lemma {:induction false} TopicTextsEmpty(topics: seq<Topic>)
    ensures TopicTexts(topics) == [] <==> forall k :: 0 <= k < |topics| ==> !Contributes(topics[k])
  {
    if topics != [] {
      TopicTextsEmpty(topics[1..]);
      assert forall k :: 1 <= k < |topics| ==> topics[k] == topics[1..][k - 1];
    }
  }

  /** With a non-negative `num_results`, at most that many related-topic
      texts are in the result, whatever the service sent. */
  lemma RelatedTextsBounded(numResults: int, abstractText: string, related: seq<Topic>, answer: string)
    requires 0 <= numResults
    ensures Pieces(Int(numResults), abstractText, related, answer).Ok?
    ensures |Pieces(Int(numResults), abstractText, related, answer).value|
            <= |SummaryPiece(abstractText)| + numResults + |AnswerPiece(answer)|
  {
    ExaminedWindow(related, Int(numResults));
  }

  /** A negative `num_results` does not examine "at most num_results"
      entries: like any Python slice it drops that many from the end. */
  lemma NegativeBoundDropsFromEnd(related: seq<Topic>, n: int)
    requires n < 0 && -n <= |related|
    ensures Examined(related, Int(n)) == Ok(related[..|related| + n])
  {
    PyPrefixShape(related, n);
  }

  /** A non-empty abstract comes first in the text. */
  lemma SummaryLeads(query: Value, numResults: Value, abstractText: string, related: seq<Topic>, answer: string)
    requires abstractText != ""
    requires Examined(related, numResults).Ok?
    ensures StartsWith(SearchText(query, numResults, Decoded(abstractText, related, answer)), SummaryPrefix + abstractText)
  {

  }

  /** A non-empty instant answer comes last in the text. */
  lemma AnswerTrails(query: Value, numResults: Value, abstractText: string, related: seq<Topic>, answer: string)
    requires answer != ""
    requires Examined(related, numResults).Ok?
    ensures EndsWith(SearchText(query, numResults, Decoded(abstractText, related, answer)), AnswerPrefix + answer)
  {
    var pieces := Pieces(numResults, abstractText, related, answer).value;
    assert pieces[|pieces| - 1] == AnswerPrefix + answer;
    JoinEndsWithLast(pieces, "\n");
  }

  /** Nothing is extracted exactly when the abstract and the answer are
      empty and no examined entry is a dict with a `Text`; the text is then
      the sentinel naming the query. */
  lemma NoInformationWhenNothingExtracted(query: Value, numResults: Value, abstractText: string, related: seq<Topic>, answer: string)
    requires Examined(related, numResults).Ok?
    ensures var window := Examined(related, numResults).value;
            Pieces(numResults, abstractText, related, answer) == Ok([]) <==>
            abstractText == "" && answer == "" && forall k :: 0 <= k < |window| ==> !Contributes(window[k])
    ensures Pieces(numResults, abstractText, related, answer) == Ok([]) ==>
            SearchText(query, numResults, Decoded(abstractText, related, answer)) == NoInformation + Json.Render(query)
  {
    var window := Examined(related, numResults).value;
    TopicTextsEmpty(window);
    var pieces := SummaryPiece(abstractText) + TopicTexts(window) + AnswerPiece(answer);
    assert |pieces| == |SummaryPiece(abstractText)| + |TopicTexts(window)| + |AnswerPiece(answer)|;
  }

  /** The sentinel is chosen on the list, not on the text: a single entry
      whose `Text` is empty gives the empty string. */
  lemma EmptyTextIsNotSentinel(query: Value)
    ensures SearchText(query, Int(5), Decoded("", [Topic(true, Some(""))], "")) == ""
  {
  }

  /** Every failure becomes text with the error prefix; nothing is raised. */
  lemma FailuresBecomeText(query: Value, numResults: Value, reply: SearchReply)
    requires reply.Failed? || Examined(reply.related, numResults).Err?
    ensures StartsWith(SearchText(query, numResults, reply), SearchErrorPrefix)
  {

  }
}

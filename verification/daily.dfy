/**
 * `main`: for each configured topic in turn, fetch its news, keep the items
 * of the report date, and push either a "no update" notice or the rendered
 * report to every endpoint. The date, the API key, the endpoint configuration,
 * the provider's replies, the send outcomes and Python's `str()` of numbers,
 * lists and dicts are parameters.
 */
module Daily {
  import opened Optional
  import opened Text
  import opened Seqs
  import opened Json
  import opened Fetch
  import opened News
  import opened Article
  import opened Endpoints
  import opened Push

  /** The configured topics, in order: provider category and display name. */
  const Topics: seq<(string, string)> :=
    [("auto", "汽车新闻"), ("ai", "科技新闻"), ("military", "军事新闻")]

  /** The body of the "no update" notice. */
  const NoNewsBody: string := "今天没有新闻更新。"

  /** The title and body of the one push a topic gets. */
  datatype Notice = Notice(title: string, body: string)

  /** The title of the "no update" notice. */
  function NoUpdateTitle(today: string, topic: string): string
  {
    today + " " + topic + "（无更新）"
  }

  /** The title of a report. */
  function ReportTitle(today: string, topic: string): string
  {
    today + " " + topic + "日报"
  }

  /**
   * The push for one topic: `main`'s branch on the filtered list. It is the
   * "no update" notice exactly when no fetched item carries the date.
   */
  function PlanTopic(today: string, topic: string, items: seq<Item>, format: Json -> string): (n: Notice)
    ensures n.title == NoUpdateTitle(today, topic) <==>
      forall i :: 0 <= i < |items| ==> !IsRecent(items[i], today)
  {
    var filtered := Recent(items, today);
    assert |NoUpdateTitle(today, topic)| != |ReportTitle(today, topic)|;
    if filtered == [] then Notice(NoUpdateTitle(today, topic), NoNewsBody)
    else Notice(ReportTitle(today, topic), Render(filtered, today, topic, format))
  }

  /**
   * The push for a topic is the "no update" notice exactly when no fetched
   * item carries the date in its `ctime`; otherwise it is the report, rendered
   * from the recent items alone, whose header counts them.
   */
  lemma PlanTopicChoice(today: string, topic: string, items: seq<Item>, format: Json -> string)
    ensures var n := PlanTopic(today, topic, items, format);
      && (n.title == NoUpdateTitle(today, topic) <==>
          forall i :: 0 <= i < |items| ==> !IsRecent(items[i], today))
      && (n.title == ReportTitle(today, topic) <==>
          exists i :: 0 <= i < |items| && IsRecent(items[i], today))
      && (n.title == NoUpdateTitle(today, topic) ==> n.body == NoNewsBody)
      && (n.title == ReportTitle(today, topic) ==>
          && n.body == Render(Recent(items, today), today, topic, format)
          && StartsWith(n.body, HeadingText(today, topic, |Recent(items, today)|)))
  {
    var filtered := Recent(items, today);
    if filtered != [] {
      assert IsRecent(filtered[0], today) && filtered[0] in items;
    }
  }

  /** The items a topic's fetch yields, or `None` when iterating them would stop the run. */
  function TopicItems(category: string, key: string, fetch: Request -> Response): Option<seq<Item>>
  {
    DecodeItems(FetchNews(fetch(NewsRequest(category, key))))
  }

  /** What happened for one topic: the push chosen and the send attempts made. */
  datatype TopicRun = TopicRun(category: string, notice: Notice, attempts: seq<Attempt>)

  /**
   * `attempts` is the notice sent once to each of `urls`, in order, with the
   * outcomes of topic `k`'s sends.
   */
  predicate SentToAll(attempts: seq<Attempt>, urls: seq<string>, notice: Notice,
                      outcome: (nat, nat) -> Outcome, k: nat)
  {
    && |attempts| == |urls|
    && forall i :: 0 <= i < |attempts| ==>
      attempts[i] == Attempt(urls[i], Payload(notice.title, notice.body, Group), outcome(k, i))
  }

  /** `run` is what topic `k` of a run comes to. */
  predicate TopicDone(run: TopicRun, k: nat, today: string, key: string, urls: seq<string>,
                      fetch: Request -> Response, outcome: (nat, nat) -> Outcome,
                      format: Json -> string)
    requires k < |Topics|
  {
    var items := TopicItems(Topics[k].0, key, fetch);
    && run.category == Topics[k].0
    && items.Some?
    && run.notice == PlanTopic(today, Topics[k].1, items.value, format)
    && SentToAll(run.attempts, urls, run.notice, outcome, k)
  }

  /**
   * Handles topic `k`: `None` when its fetched list cannot be iterated as
   * items, otherwise the one push chosen for it, sent to every endpoint.
   */
  method RunTopic(k: nat, today: string, key: string, config: string,
                  fetch: Request -> Response, outcome: (nat, nat) -> Outcome,
                  format: Json -> string)
    returns (run: Option<TopicRun>)
    requires k < |Topics|
    ensures run.None? <==> TopicItems(Topics[k].0, key, fetch).None?
    ensures run.Some? ==> TopicDone(run.value, k, today, key, ParseEndpoints(config), fetch, outcome, format)
  {
    var category := Topics[k].0;
    var items := TopicItems(category, key, fetch);
    if items.None? {
      return None;
    }
    var notice := PlanTopic(today, Topics[k].1, items.value, format);
    var urls, attempts := PushToAll(config, notice.title, notice.body, (i: nat) => outcome(k, i));
    run := Some(TopicRun(category, notice, attempts));
  }

  /**
   * One run of the job. Topics are handled in order; each gets exactly one
   * push, sent once to every endpoint with the same payload, whatever the
   * earlier sends came to. The run stops early only at a topic whose fetched
   * list cannot be iterated as items, and then that topic and those after it
   * push nothing.
   */
  method RunDaily(today: string, key: string, config: string,
                  fetch: Request -> Response, outcome: (nat, nat) -> Outcome,
                  format: Json -> string)
    returns (runs: seq<TopicRun>, finished: bool)
    ensures |runs| <= |Topics|
    ensures finished <==> |runs| == |Topics|
    ensures !finished ==> TopicItems(Topics[|runs|].0, key, fetch).None?
    ensures forall k :: 0 <= k < |runs| ==>
      TopicDone(runs[k], k, today, key, ParseEndpoints(config), fetch, outcome, format)
  {
    runs := [];
    var urls := ParseEndpoints(config);
    var k := 0;
    while k < |Topics|
      invariant 0 <= k <= |Topics|
      invariant |runs| == k
      invariant forall j :: 0 <= j < k ==> TopicDone(runs[j], j, today, key, urls, fetch, outcome, format)
    {
      var run := RunTopic(k, today, key, config, fetch, outcome, format);
      if run.None? {
        return runs, false;
      }
      var next := runs + [run.value];
      forall j | 0 <= j <= k
        ensures TopicDone(next[j], j, today, key, urls, fetch, outcome, format)
      {
        if j < k {
          assert next[j] == runs[j];
        }
      }
      runs := next;
      k := k + 1;
    }
    finished := true;
  }

  /**
   * A topic whose only item is from another day is not stopped by fields the
   * filter never reads: with a `null` title and a `null` image it still
   * decodes, and the topic gets the "no update" notice.
   */
  lemma StaleItemWithNullFields(topic: string, format: Json -> string)
    ensures var stale: Item := map["ctime" := Str("2020-01-01"), "title" := Null, "picUrl" := Null];
      && DecodeItems(Arr([AsJson(stale)])) == Some([stale])
      && PlanTopic("2024-06-01", topic, [stale], format) == Notice(NoUpdateTitle("2024-06-01", topic), NoNewsBody)
  {
    var stale: Item := map["ctime" := Str("2020-01-01"), "title" := Null, "picUrl" := Null];
    var d := "2024-06-01";
    assert Field(stale, "ctime") == Str("2020-01-01");
    OtherDayIsNotRecent(stale, d, "2020-01-01");
    assert Recent([stale], d) == [];
    assert Searchable(stale);
    DecodeAllOfDicts([stale]);
    assert Map([stale], AsJson) == [AsJson(stale)];
  }
}

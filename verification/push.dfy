/**
 * The send loop of `push_wechat_article_to_bark`: one POST of the same
 * payload to every configured endpoint, in list order. The HTTP exchange is
 * not modelled; the outcome of the i-th send is supplied from outside, and
 * whatever it is the loop goes on to the next endpoint.
 */
module Push {
  import opened Endpoints

  /** The fixed grouping label of every push. */
  const Group: string := "每日新闻日报"

  /** The JSON body of a push. */
  datatype Payload = Payload(title: string, body: string, group: string)

  /** What one send came to: a decoded reply, or an exception that was caught and logged. */
  datatype Outcome = Answered | SendFailed

  /** One send attempt: where to, what, and how it went. */
  datatype Attempt = Attempt(endpoint: string, payload: Payload, outcome: Outcome)

  /**
   * Pushes `title` and `article` to every endpoint configured in `config`.
   * `urls` is the parsed endpoint list; there is exactly one attempt per
   * entry, in list order, each with the same payload, so a failed send never
   * prevents the later ones.
   */
  method PushToAll(config: string, title: string, article: string, outcome: nat -> Outcome)
    returns (urls: seq<string>, log: seq<Attempt>)
    ensures urls == ParseEndpoints(config)
    ensures |log| == |urls|
    ensures forall i :: 0 <= i < |log| ==>
      log[i] == Attempt(urls[i], Payload(title, article, Group), outcome(i))
  {
    urls := ParseEndpoints(config);
    var payload := Payload(title, article, Group);
    log := [];
    for i := 0 to |urls|
      invariant |log| == i
      invariant forall k :: 0 <= k < i ==> log[k] == Attempt(urls[k], payload, outcome(k))
    {
      var result := outcome(i);
      log := log + [Attempt(urls[i], payload, result)];
    }
  }
}

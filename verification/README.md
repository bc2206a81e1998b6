# New-Vision daily news push, modelled in Dafny

New-Vision is a scheduled batch job (`main.py`). Each configured topic gets one
pass. The job fetches the topic's news list from the TianAPI provider and keeps
the items whose `ctime` contains today's date. It then pushes one message to
every Bark endpoint listed in the comma-separated `BARK_URL` setting. That
message is either a "no update" notice or an HTML article that lists the items.

This project models the logic of that job as pure functions and three small
methods (`Push.PushToAll`, `Daily.RunTopic` and `Daily.RunDaily`), and proves
what they guarantee:

- `Fetch`: the check of the provider's reply in `fetch_tian_news`. It follows
  Python's evaluation of `data.get("code") == 200`, the truth value of
  `data.get("result")`, `"newslist" in ...`, the subscript and `len`.
- `News`: the fetched value as a list of items, and the recency filter of `main`.
- `Article`: `generate_wechat_article`. It is modelled as a list of structured
  lines and then their markup.
- `Endpoints` and `Push`: the `BARK_URL` parsing and the send loop of
  `push_wechat_article_to_bark`.
- `Daily`: `main`'s loop over the topics and its choice between the notice
  and the report.
- `Text`, `Seqs`, `Json`, `Optional`: Python's string operations
  (`strip`, `rstrip`, `split`, `in`, `str(n)`, `"".join`), list comprehensions,
  decoded JSON values, and optional values.

The program's inputs are parameters of the model:

- the report date `today`;
- the API key;
- the `BARK_URL` configuration string;
- the provider's reply to each request, as a function from `Fetch.Request` to
  `Fetch.Response`;
- the outcome of each send, as a function from (topic index, endpoint index)
  to `Push.Outcome`;
- Python's `str()` of a JSON number, list or dict, as a function `format`. The
  renderer needs it only when a title, image URL or description is not a
  string. Strings, `None`, `True` and `False` are shown as Python shows them.

What `main.py` does, and so what the model does:

- The date test is a substring test (`today in ctime`), not a prefix test.
- The filter reads only `ctime`. An element stops the run only when it is not
  a dict, or when its `ctime` is present and is not a string, list or dict.
- There is no deduplication, translation, report chunking, footer, pacing
  delay or second provider.
- A failed send is only logged. No "delivery failed" notice is sent.
- Missing settings default to the empty string and never stop the run.

## Model

| member | source | states |
|---|---|---|
| Text.Strip | main.py:45 | `u.strip()` leaves a contiguous piece of `u` that starts and ends with non-whitespace. Everything cut off is whitespace, and the result is empty exactly when `u` is blank (Python's `isspace` set). |
| Text.TrimTrailing | main.py:45 | `rstrip("/")` leaves a prefix that does not end in `/`. Everything it removes is `/`. |
| Text.Split | main.py:45 | `split(",")` gives at least one piece. No piece contains a comma, and joining the pieces with commas gives the input back. |
| Text.SplitJoin | main.py:45 | Splitting a comma-join of comma-free pieces gives those pieces back. With `Split`'s own round trip, split and join are inverses. |
| Text.ContainsIffOccurs | main.py:60 | The left-to-right `in` scan succeeds exactly when the needle occurs at some offset of the text. |
| Text.Decimal | main.py:34-36 | `str(n)` for the item count and the item numbers is all digits, has no leading zero and denotes `n`. |
| Text.DecimalInjective | main.py:34-36 | Different counts or numbers never print alike. |
| Seqs.Filter | main.py:60 | A list comprehension with a condition is never longer than its input, and every element it keeps passes the condition. |
| Seqs.FilterIsKeptSubsequence | main.py:45 | A comprehension with a condition yields the elements at strictly increasing positions. A position is kept exactly when its element passes the condition. |
| Json.Get | main.py:24 | `v.get(key)` raises exactly when `v` is not a dict. On a dict it gives the entry, or `None` when the key is missing. |
| Json.GetAgreesWithIndex | main.py:24-25 | `v.get(key)` and `v[key]` agree wherever the subscript answers. On a dict without the key, the subscript raises and `get` gives `None`. |
| Json.In | main.py:24 | `key in v` raises exactly when `v` is not a dict, list or string. It is key membership for a dict, element equality for a list, and an occurrence at some offset for a string. |
| Json.Index | main.py:25 | `v[key]` answers exactly when `v` is a dict that holds `key`. |
| Json.Len | main.py:24-26 | `len(v)` is defined exactly for strings, lists and dicts. For those, the truth value tested on line 24 is "the length is not zero". |
| Fetch.NewsRequest | main.py:18-21 | The request goes to `https://apis.tianapi.com/` + category + `/index` with the API key and `num=50`. The category can be read back from the URL. |
| Fetch.FetchNews | main.py:16-31 | For every reply, the result is `result.newslist` when the reply is a dict with `code == 200`, a dict `result` holding `newslist`, and a `newslist` that has a length. In every other case it is `[]`: a raised request, a non-dict body, a falsy or non-dict `result`, a missing key, or an unsized list. |
| News.DecodeItem | main.py:60 | An element of the fetched list is read as an item exactly when it is a dict whose `ctime` is missing or is a string, list or dict. The item is that dict unchanged. |
| News.DecodeItemIffNoRaise | main.py:60 | The test `today in n.get("ctime", "")` answers, rather than raising, exactly on the elements `DecodeItem` accepts. Its answer is the recency of the decoded item. |
| News.DecodeAll | main.py:60 | The fetched list is read as items exactly when every element is. Then item `i` is element `i`. |
| News.DecodeItems | main.py:59-60 | The value `main` iterates is read as items exactly when it is a list of such dicts, the empty string or the empty dict. Any other value makes the comprehension raise. |
| News.DecodeItemsMatchComprehension | main.py:59-60 | The model agrees with Python's evaluation of the comprehension, including iteration over a string's characters or a dict's keys. `DecodeItems` fails exactly when the comprehension raises. Otherwise the comprehension yields the recent items, as dicts, in order. |
| News.DecodeAllOfDicts | main.py:60 | A list of dicts decodes to exactly those items when every `ctime` can be searched, and fails otherwise. |
| News.DecodeItemsRoundTrip | main.py:59-60 | A list of dicts reads back as the same items, in order, exactly when every `ctime` can be searched. |
| News.Recent | main.py:60 | Every item the filter keeps has `today` inside its `ctime` and comes from the input. Every such input item is kept, and the output is never longer than the input. |
| News.RecentIsSubsequence | main.py:60 | The filtered list is the input's subsequence at strictly increasing positions, in the original order. A position is kept exactly when its `ctime` (default `""`) contains `today`. |
| News.RecentAppend | main.py:60 | Filtering a concatenation is concatenating the filtered parts, so the filter looks at each item on its own. |
| News.RecentIdempotent | main.py:60 | Filtering the filtered list again changes nothing. |
| News.OtherDayIsNotRecent | main.py:60 | A string `ctime` as long as the date but different from it never passes. |
| News.ListTimestamp | main.py:60 | A `ctime` that is a list passes exactly when one of its elements is the date string. |
| News.MissingTimestamp | main.py:60 | An item without `ctime` counts as `""`, so it passes only for an empty date. |
| News.DateInsideIsRecent | main.py:60 | A `ctime` that holds the date anywhere passes, not only at its start. |
| News.RecencyExample | main.py:60 | With the date `2024-06-01`, the filter keeps `2024-06-01T10:00:00` and drops `2024-05-31T23:59:59`, in either order. |
| Article.ParseBlocksInverts | main.py:35-40 | The item blocks can be read back exactly. Titles are numbered consecutively from the first number, each block has an optional image and then its description. |
| Article.LayoutIsLossless | main.py:33-41 | Reading the line list back gives the date, the topic, and every item's title, image and description in input order. The items are numbered 1..n, and n is the count in the header. |
| Article.BlockShape | main.py:36-40 | An item's block starts with its numbered title and ends with its description (`""` when missing). It has the image line exactly when `picUrl` is present and truthy, so a `null`, `false`, `0`, empty string, list or dict gives no image. |
| Article.LayoutSize | main.py:34-40 | The article has one header line, two lines per item and one more per item with an image. |
| Article.LineText | main.py:34-40 | The exact markup of each line, as a fixed opening followed directly by a fixed closing. The header is `<h2>`, the date, the topic and ` 资讯精选（共 `, then the count and ` 条）</h2><br>`. A title line is `<h3>`, a bold span with the number and `.`, a second bold span with the title, and `</h3>`. An image line is `<img src="`, the URL, and `" style="max-width:100%"><br>`. A description line is the description followed by `<br><br>`. Values are shown as an f-string shows them. |
| Article.HeadingDeterminesCount | main.py:34 | Two headers for the same date and topic that read alike carry the same item count. |
| Article.Render | main.py:33-41 | The article starts with the header that carries the date, the topic and the item count. With no items it is that header alone. Otherwise it ends with the last description followed by `<br><br>`. |
| Endpoints.Clean | main.py:45 | An endpoint is the stripped piece with only trailing `/` removed. It never ends in `/` and never starts with whitespace. |
| Endpoints.ParseEndpoints | main.py:45 | There are never more endpoints than comma-separated pieces, and none of them ends in `/`. The list is empty exactly when every piece is blank. |
| Endpoints.EndpointsFromPieces | main.py:45 | Endpoint `k` is the cleaned piece at the k-th kept position of the split. The positions increase, and a piece yields an endpoint exactly when it is not blank. |
| Endpoints.EndpointsOfJoin | main.py:45 | A setting written as comma-joined non-blank pieces yields exactly those pieces, cleaned, in order. |
| Endpoints.SlashOnlyPiece | main.py:45 | The piece `" / "` yields an endpoint, and that endpoint is the empty string. |
| Push.PushToAll | main.py:44-53 | The endpoint list is the parsed `BARK_URL`. Each endpoint gets exactly one send attempt, in list order. All attempts carry the same payload (title, body, group `每日新闻日报`). The number of attempts does not depend on any outcome, so a failed send never stops the later ones. |
| Daily.PlanTopic | main.py:63-68 | A topic's push is the notice `"{today} {topic}（无更新）"` exactly when no fetched item's `ctime` contains `today`. |
| Daily.PlanTopicChoice | main.py:59-68 | A topic gets the notice `"{today} {topic}（无更新）"` with body `今天没有新闻更新。` exactly when no fetched item's `ctime` contains `today`. Otherwise it gets `"{today} {topic}日报"` with the article rendered from the recent items alone, and the article's header counts them. |
| Daily.StaleItemWithNullFields | main.py:60-64 | An item from another day with `null` title and image does not stop the run. It decodes, and the topic gets the "no update" notice. |
| Daily.RunTopic | main.py:58-68 | A topic whose filter does not raise gets exactly one push, the one chosen above. That push is sent to every endpoint. A topic whose filter raises pushes nothing. |
| Daily.RunDaily | main.py:55-69 | Topics are handled in order (`auto`, `ai`, `military`), and each finished topic has exactly one push sent to every endpoint. The run ends early only at a topic whose filter raises: a fetched value that cannot be iterated, or an element that is not a dict or whose `ctime` cannot be searched. |

## Left out

- HTTP, JSON decoding and timeouts (`requests.post`, `resp.json()`, `timeout=10` and `timeout=15`) are not modelled. A fetch is an abstract `Response` (a failure or a decoded body), and a send is an abstract `Outcome`.
- `datetime.now()` and `os.getenv` are not modelled. The date, the API key and `BARK_URL` are parameters.
- The `print` logging is not modelled; it has no effect on behaviour. Push replies are only logged in the source, so `Outcome` carries no reply body.
- Fetch.FetchNews: JSON numbers are exact reals. Python float rounding (a `code` like `200.00000000000001` that compares equal to 200), `NaN` and `Infinity` are not modelled.
- Article.LineText: Python's `str()` of a number, list or dict is the parameter `format`, not a definition. Float and int spelling, and the quoting inside a list or dict, are not modelled.
- Json.In: `in` on a list compares elements with Python's `==`. The model compares JSON values structurally, which agrees whenever the needle is a string, as it always is here.
- Daily.RunDaily: an uncaught exception is modelled as the run stopping (`finished == false`). The traceback and the process exit status are not modelled.
- Strings are sequences of Unicode scalar values. Python strings that hold lone surrogates are not modelled.
- Iteration order of `TOPICS` is its insertion order, as in Python 3.7+. The source has no concurrency.
- Deduplication, persistence, translation, report chunking, a second provider schema and pacing delays are not modelled. `main.py` does none of them.

/**
 * News items as the job reads them, and the recency filter of `main`: the
 * fetched list is walked in order, and an element is kept when today's date
 * occurs in its `ctime` field, a missing field counting as the empty string.
 * Each element must be a dict and its timestamp must support `in`; otherwise
 * the filter raises and the run stops.
 */
module News {
  import opened Optional
  import opened Text
  import opened Seqs
  import opened Json

  /** A news item: the fields of one dict of the fetched list, by name. */
  type Item = map<string, Json>

  /** An item as the dict it came from. */
  function AsJson(n: Item): Json
  {
    Obj(n)
  }

  /** `n.get(key, "")`: the field when present, the empty string otherwise. */
  function Field(n: Item, key: string): (v: Json)
    ensures key in n ==> Get(Obj(n), key) == Value(Some(v))
    ensures key !in n ==> Get(Obj(n), key) == Value(None) && v == Str("")
  {
    if key in n then n[key] else Str("")
  }

  /**
   * The test of the filter on one element of the fetched list,
   * `today in n.get("ctime", "")`, as Python evaluates it: `get` raises
   * unless the element is a dict, and `in` raises unless the timestamp is a
   * string, a list or a dict.
   */
  function ElementTest(v: Json, today: string): Py<bool>
  {
    match Get(v, "ctime")
    case Raised => Raised
    case Value(c) => In(today, if c.Some? then c.value else Str(""))
  }

  /** The timestamp of `n` can be searched: it is missing, a string, a list or a dict. */
  predicate Searchable(n: Item) {
    var c := Field(n, "ctime");
    c.Str? || c.Arr? || c.Obj?
  }

  /**
   * One element of the fetched list as an item, or `None` when the test of
   * the filter raises on it. That happens exactly when the element is not a
   * dict or its timestamp cannot be searched.
   */
  function DecodeItem(v: Json): (r: Option<Item>)
    ensures r.Some? <==> v.Obj? && Searchable(v.fields)
    ensures r.Some? ==> AsJson(r.value) == v
  {
    if v.Obj? && ElementTest(v, "").Value? then Some(v.fields) else None
  }

  /** Decodes every element, or fails if one does not decode. */
  function DecodeAll(elems: seq<Json>): (r: Option<seq<Item>>)
    ensures r.Some? <==> forall i :: 0 <= i < |elems| ==> DecodeItem(elems[i]).Some?
    ensures r.Some? ==>
      && |r.value| == |elems|
      && (forall i :: 0 <= i < |elems| ==> DecodeItem(elems[i]) == Some(r.value[i]))
  {
    if |elems| == 0 then Some([])
    else
      match DecodeItem(elems[0])
      case None => None
      case Some(n) =>
        match DecodeAll(elems[1..])
        case None =>
          assert forall i :: 1 <= i < |elems| ==> elems[i] == elems[1..][i - 1];
          None
        case Some(rest) =>
          assert forall i :: 1 <= i < |elems| ==> elems[i] == elems[1..][i - 1];
          Some([n] + rest)
  }

  /**
   * The items `main` walks over, or `None` when the filter raises: on a list,
   * when some element does not decode; on a string or a dict, which are walked
   * as their characters or keys, whenever there is anything to walk; on any
   * other value, always.
   */
  function DecodeItems(list: Json): (r: Option<seq<Item>>)
    ensures r.Some? <==>
      || (list.Arr? && forall i :: 0 <= i < |list.elems| ==>
            list.elems[i].Obj? && Searchable(list.elems[i].fields))
      || list == Str("")
      || list == Obj(map[])
  {
    match list
    case Arr(elems) => DecodeAll(elems)
    case Str(s) => if s == "" then Some([]) else None
    case Obj(fields) => if |fields| == 0 then Some([]) else None
    case _ => None
  }

  /** A list of items comes back unchanged exactly when every timestamp can be searched. */
  lemma DecodeItemsRoundTrip(items: seq<Item>)
    ensures DecodeItems(Arr(Map(items, AsJson))).Some? <==>
      forall i :: 0 <= i < |items| ==> Searchable(items[i])
    ensures DecodeItems(Arr(Map(items, AsJson))).Some? ==>
      DecodeItems(Arr(Map(items, AsJson))).value == items
  {
    DecodeAllOfDicts(items);
  }

  lemma {:induction false} DecodeAllOfDicts(items: seq<Item>)
    ensures DecodeAll(Map(items, AsJson)) ==
      if forall i :: 0 <= i < |items| ==> Searchable(items[i]) then Some(items) else None
    decreases |items|
  {
    if |items| > 0 {
      var elems := Map(items, AsJson);
      DecodeAllOfDicts(items[1..]);
      assert elems[1..] == Map(items[1..], AsJson);
      assert elems[0] == Obj(items[0]);
      assert forall i :: 1 <= i < |items| ==> items[i] == items[1..][i - 1];
      assert [items[0]] + items[1..] == items;
    }
  }

  /** `today in n.get("ctime", "")` holds of an item. */
  predicate IsRecent(n: Item, today: string) {
    In(today, Field(n, "ctime")) == Value(true)
  }

  /** The recency test as a value, for the filter. */
  function RecentTest(today: string): Item -> bool
  {
    (n: Item) => IsRecent(n, today)
  }

  /**
   * The items of the report date: every one kept is recent, every recent item
   * is kept, nothing else is, and there are never more than were fetched.
   */
  function Recent(items: seq<Item>, today: string): (r: seq<Item>)
    ensures |r| <= |items|
    ensures forall i :: 0 <= i < |r| ==> IsRecent(r[i], today) && r[i] in items
    ensures forall j :: 0 <= j < |items| && IsRecent(items[j], today) ==> items[j] in r
  {
    var r := Filter(items, RecentTest(today));
    FilterIsKeptSubsequence(items, RecentTest(today));
    var idx := KeptIndices(items, RecentTest(today));
    assert forall j :: 0 <= j < |items| && IsRecent(items[j], today) ==> items[j] in r by {
      forall j | 0 <= j < |items| && IsRecent(items[j], today)
        ensures items[j] in r
      {
        assert j in idx;
        var k :| 0 <= k < |idx| && idx[k] == j;
        assert r[k] == items[j];
      }
    }
    r
  }

  /**
   * What Python's `for n in list` visits: a list's elements, a string's
   * characters, a dict's keys (in some order; Python's insertion order is not
   * recorded by a map), and a TypeError for anything else.
   */
  ghost function Elements(list: Json): Py<seq<Json>>
  {
    match list
    case Arr(elems) => Value(elems)
    case Str(s) => Value(Map(s, (c: char) => Str([c])))
    case Obj(fields) => Value(Keys(fields))
    case _ => Raised
  }

  /** The keys of a dict, as strings, in some order. */
  ghost function Keys(m: map<string, Json>): (r: seq<Json>)
    ensures |r| == |m|
    ensures forall i :: 0 <= i < |r| ==> r[i].Str?
    decreases |m|
  {
    if |m| == 0 then []
    else
      var k :| k in m;
      [Str(k)] + Keys(m - {k})
  }

  /**
   * The comprehension over the visited elements, left to right: the first
   * element on which the test raises makes the whole list raise.
   */
  function Comprehension(elems: seq<Json>, today: string): Py<seq<Json>>
  {
    if |elems| == 0 then Value([])
    else
      match ElementTest(elems[0], today)
      case Raised => Raised
      case Value(keep) =>
        match Comprehension(elems[1..], today)
        case Raised => Raised
        case Value(rest) => Value((if keep then [elems[0]] else []) + rest)
  }

  /** The filtered list of `main` as Python computes it from the fetched value. */
  ghost function FilteredList(list: Json, today: string): Py<seq<Json>>
  {
    match Elements(list)
    case Raised => Raised
    case Value(elems) => Comprehension(elems, today)
  }

  /**
   * On a test that cannot raise, `DecodeItem` agrees with Python: it decodes
   * exactly the elements on which the test answers, and the answer is the
   * recency of the decoded item.
   */
  lemma DecodeItemIffNoRaise(v: Json, today: string)
    ensures DecodeItem(v).Some? <==> ElementTest(v, today).Value?
    ensures DecodeItem(v).Some? ==> ElementTest(v, today) == Value(IsRecent(DecodeItem(v).value, today))
  {
  }

  lemma {:induction false} ComprehensionOfDecoded(elems: seq<Json>, today: string)
    ensures DecodeAll(elems).None? <==> Comprehension(elems, today).Raised?
    ensures DecodeAll(elems).Some? ==>
      Comprehension(elems, today) == Value(Map(Recent(DecodeAll(elems).value, today), AsJson))
    decreases |elems|
  {
    if |elems| > 0 {
      var e := elems[0];
      var rest := elems[1..];
      ComprehensionOfDecoded(rest, today);
      DecodeItemIffNoRaise(e, today);
      if DecodeAll(elems).Some? {
        var items := DecodeAll(elems).value;
        var n := items[0];
        assert DecodeAll(rest).value == items[1..];
        var head: seq<Item> := if IsRecent(n, today) then [n] else [];
        assert Recent(items, today) == head + Recent(items[1..], today);
        var tail := Map(Recent(items[1..], today), AsJson);
        assert Map(head + Recent(items[1..], today), AsJson)
            == (if IsRecent(n, today) then [e] else []) + tail;
      }
    }
  }

  /**
   * The model's reading of the fetched value and its filter agree with
   * Python's evaluation of the comprehension: `DecodeItems` fails exactly when
   * the comprehension raises, and otherwise the comprehension yields the
   * recent items, as dicts, in order.
   */
  lemma DecodeItemsMatchComprehension(list: Json, today: string)
    ensures DecodeItems(list).None? <==> FilteredList(list, today).Raised?
    ensures DecodeItems(list).Some? ==>
      FilteredList(list, today) == Value(Map(Recent(DecodeItems(list).value, today), AsJson))
  {
    match list
    case Arr(elems) =>
      ComprehensionOfDecoded(elems, today);
    case Str(s) =>
      if s != "" {
        var elems := Map(s, (c: char) => Str([c]));
        assert elems[0].Str?;
      }
    case Obj(fields) =>
      if |fields| != 0 {
        assert Keys(fields)[0].Str?;
      }
    case _ =>
  }

  /** Filtering two fetched batches one after the other is filtering their concatenation. */
  lemma RecentAppend(a: seq<Item>, b: seq<Item>, today: string)
    ensures Recent(a + b, today) == Recent(a, today) + Recent(b, today)
  {
    FilterAppend(a, b, RecentTest(today));
  }

  /** Filtering the recent items again changes nothing. */
  lemma RecentIdempotent(items: seq<Item>, today: string)
    ensures Recent(Recent(items, today), today) == Recent(items, today)
  {
    FilterIdempotent(items, RecentTest(today));
  }

  /**
   * The filter is order-preserving: the recent items are exactly the items at
   * the kept positions, which increase, and a position is kept exactly when
   * its item's `ctime` contains `today`.
   */
  lemma RecentIsSubsequence(items: seq<Item>, today: string)
    ensures var idx := KeptIndices(items, RecentTest(today));
      && |idx| == |Recent(items, today)|
      && (forall k :: 0 <= k < |idx| ==> idx[k] < |items| && Recent(items, today)[k] == items[idx[k]])
      && (forall k, l :: 0 <= k < l < |idx| ==> idx[k] < idx[l])
      && (forall j :: 0 <= j < |items| ==> (IsRecent(items[j], today) <==> j in idx))
  {
    FilterIsKeptSubsequence(items, RecentTest(today));
  }

  /** An item whose `ctime` is missing is recent only for an empty date. */
  lemma MissingTimestamp(n: Item, today: string)
    requires "ctime" !in n
    ensures IsRecent(n, today) <==> today == ""
  {
    if today == "" {
      assert OccursAt("", today, 0);
    }
  }

  /**
   * The date test on a string timestamp is a substring test, not a prefix
   * test: a timestamp that carries the date anywhere passes (the date part of
   * an ISO timestamp is the case `before == ""`).
   */
  lemma DateInsideIsRecent(n: Item, today: string, before: string, after: string)
    requires Field(n, "ctime") == Str(before + today + after)
    ensures IsRecent(n, today)
  {
    var c := before + today + after;
    assert c[|before|..|before| + |today|] == today;
    assert OccursAt(c, today, |before|);
  }

  /**
   * A string timestamp as long as the date but different from it is not
   * recent: the date can only occur at offset 0, and it does not.
   */
  lemma OtherDayIsNotRecent(n: Item, today: string, stamp: string)
    requires Field(n, "ctime") == Str(stamp)
    requires |stamp| == |today| && stamp != today
    ensures !IsRecent(n, today)
  {
    forall i
      ensures !OccursAt(stamp, today, i)
    {
      if 0 <= i && i + |today| <= |stamp| {
        assert i == 0;
        assert stamp[i..i + |today|] == stamp;
      }
    }
  }

  /** A list timestamp passes when one of its elements is the date itself. */
  lemma ListTimestamp(n: Item, today: string, stamps: seq<Json>)
    requires Field(n, "ctime") == Arr(stamps)
    ensures IsRecent(n, today) <==> Str(today) in stamps
  {
  }

  /**
   * A timestamp on the report date passes the filter and one from the day
   * before does not, whatever their order in the batch.
   */
  lemma RecencyExample()
    ensures var onDay: Item := map["ctime" := Str("2024-06-01T10:00:00")];
      var dayBefore: Item := map["ctime" := Str("2024-05-31T23:59:59")];
      && Recent([dayBefore, onDay], "2024-06-01") == [onDay]
      && Recent([onDay, dayBefore], "2024-06-01") == [onDay]
  {
    var d := "2024-06-01";
    var onDay: Item := map["ctime" := Str("2024-06-01T10:00:00")];
    var dayBefore: Item := map["ctime" := Str("2024-05-31T23:59:59")];
    DateInsideIsRecent(onDay, d, "", "T10:00:00");
    var miss := "2024-05-31T23:59:59";
    assert Field(dayBefore, "ctime") == Str(miss);
    forall i
      ensures !OccursAt(miss, d, i)
    {
      if 0 <= i && i + |d| <= |miss| {
        assert miss[i..i + |d|][6] == miss[i + 6] != '6';
      }
    }
    assert !IsRecent(dayBefore, d);
    assert Filter([dayBefore, onDay], RecentTest(d)) == [] + Filter([onDay], RecentTest(d));
    assert Filter([onDay, dayBefore], RecentTest(d)) == [onDay] + Filter([dayBefore], RecentTest(d));
  }
}

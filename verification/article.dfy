/**
 * `generate_wechat_article`: the HTML report for one topic. The renderer
 * builds a list of lines (a header, then per item a numbered title, an image
 * when the item has one, and the description) and concatenates them. The
 * model keeps that list as structured `Line`s, so that what a line says can be
 * stated apart from how it is spelled.
 */
module Article {
  import opened Optional
  import opened Text
  import opened Seqs
  import opened Json
  import opened News

  /** The fields of an item the renderer shows, as decoded values. */
  datatype Shown = Shown(title: Json, picture: Option<Json>, description: Json)

  /**
   * What the renderer reads from an item: the title (empty when missing), the
   * image only when `picUrl` is present and truthy, and the description
   * (empty when missing).
   */
  function ShownOf(n: Item): Shown
  {
    Shown(
      Field(n, "title"),
      if HasPicture(n) then Some(n["picUrl"]) else None,
      Field(n, "description"))
  }

  /** Whether the item gets an image line: `n.get("picUrl")` is truthy. */
  predicate HasPicture(n: Item) {
    "picUrl" in n && Truthy(n["picUrl"])
  }

  /** One entry of the renderer's `lines` list. */
  datatype Line =
    | Heading(date: string, topic: string, count: nat)
    | Title(number: nat, title: Json)
    | Picture(url: Json)
    | Summary(text: Json)

  /** The lines of one item, numbered `number`. */
  function Block(s: Shown, number: nat): seq<Line>
  {
    [Title(number, s.title)]
    + (if s.picture.Some? then [Picture(s.picture.value)] else [])
    + [Summary(s.description)]
  }

  /** The blocks of `items`, numbered from `first` on. */
  function Blocks(items: seq<Shown>, first: nat): seq<Line>
  {
    if |items| == 0 then [] else Block(items[0], first) + Blocks(items[1..], first + 1)
  }

  /** The whole line list: the header, then one block per item numbered from 1. */
  function Layout(items: seq<Item>, date: string, topic: string): seq<Line>
  {
    [Heading(date, topic, |items|)] + Blocks(Map(items, ShownOf), 1)
  }

  /**
   * Reads blocks back from lines: each block must start with the title
   * numbered `first` (then `first + 1`, ...), may carry one picture, and ends
   * with the description. Anything else is rejected.
   */
  function ParseBlocks(lines: seq<Line>, first: nat): Option<seq<Shown>>
    decreases |lines|
  {
    if |lines| == 0 then Some([])
    else if !lines[0].Title? || lines[0].number != first then None
    else
      var (picture, used) :=
        if |lines| >= 2 && lines[1].Picture? then (Some(lines[1].url), 2) else (None, 1);
      if |lines| <= used || !lines[used].Summary? then None
      else
        match ParseBlocks(lines[used + 1..], first + 1)
        case None => None
        case Some(rest) => Some([Shown(lines[0].title, picture, lines[used].text)] + rest)
  }

  /**
   * Reads a whole line list back: the header, then blocks numbered from 1
   * whose number agrees with the header's count.
   */
  function ParseLayout(lines: seq<Line>): Option<(string, string, seq<Shown>)>
  {
    if |lines| == 0 || !lines[0].Heading? then None
    else
      match ParseBlocks(lines[1..], 1)
      case None => None
      case Some(shown) =>
        if |shown| != lines[0].count then None
        else Some((lines[0].date, lines[0].topic, shown))
  }

  lemma {:induction false} ParseBlocksInverts(items: seq<Shown>, first: nat)
    ensures ParseBlocks(Blocks(items, first), first) == Some(items)
    decreases |items|
  {
    if |items| > 0 {
      var s := items[0];
      var block := Block(s, first);
      var rest := Blocks(items[1..], first + 1);
      var lines := block + rest;
      ParseBlocksInverts(items[1..], first + 1);
      assert lines[|block|..] == rest;
      assert [s] + items[1..] == items;
      if s.picture.Some? {
        assert lines[1] == Picture(s.picture.value);
        assert lines[2] == Summary(s.description);
      } else {
        assert lines[1] == Summary(s.description);
      }
    }
  }

  /**
   * The layout loses nothing the renderer shows: reading it back gives the
   * report date, the topic name, and each item's title, image and description
   * in input order, under consecutive numbers 1..n that agree with the count
   * in the header.
   */
  lemma LayoutIsLossless(items: seq<Item>, date: string, topic: string)
    ensures ParseLayout(Layout(items, date, topic)) == Some((date, topic, Map(items, ShownOf)))
  {
    var lines := Layout(items, date, topic);
    assert lines[1..] == Blocks(Map(items, ShownOf), 1);
    ParseBlocksInverts(Map(items, ShownOf), 1);
  }

  /**
   * The block of an item is its numbered title, then its image exactly when
   * `picUrl` is present and truthy, then its description.
   */
  lemma BlockShape(n: Item, number: nat)
    ensures var b := Block(ShownOf(n), number);
      && b[0] == Title(number, Field(n, "title"))
      && (HasPicture(n) <==> |b| == 3)
      && (HasPicture(n) ==> b[1] == Picture(n["picUrl"]))
      && b[|b| - 1] == Summary(Field(n, "description"))
  {
  }

  /** How many items carry an image. */
  function PictureCount(items: seq<Item>): nat
  {
    if |items| == 0 then 0 else (if HasPicture(items[0]) then 1 else 0) + PictureCount(items[1..])
  }

  /** Two lines per item, one more per image, and the header. */
  lemma {:induction false} LayoutSize(items: seq<Item>, date: string, topic: string)
    ensures |Layout(items, date, topic)| == 1 + 2 * |items| + PictureCount(items)
  {
    BlocksSize(items, 1);
  }

  lemma {:induction false} BlocksSize(items: seq<Item>, first: nat)
    ensures |Blocks(Map(items, ShownOf), first)| == 2 * |items| + PictureCount(items)
    decreases |items|
  {
    if |items| > 0 {
      BlocksSize(items[1..], first + 1);
      assert Map(items, ShownOf)[1..] == Map(items[1..], ShownOf);
    }
  }

  /** The opening tag of the bold spans around an item's number and title. */
  const BoldOpen: string := "<span style='font-weight:bold; font-size:18px'>"

  /**
   * `text` is `open` followed directly by `close`: it starts with the one,
   * ends with the other, and nothing lies between them.
   */
  predicate Framed(text: string, open: string, close: string) {
    StartsWith(text, open) && EndsWith(text, close) && |text| == |open| + |close|
  }

  /**
   * The markup of one line, each value shown as an f-string shows it. The
   * header is an `h2` naming the date and the topic, then the item count; a
   * title line is an `h3` holding the number and then the title, each in a
   * bold span; an image line is an `img` tag whose `src` is the URL; a
   * description line is the description followed by two line breaks.
   */
  function LineText(l: Line, format: Json -> string): (text: string)
    ensures l.Heading? ==>
      Framed(text, "<h2>" + l.date + " " + l.topic + " 资讯精选（共 ",
             Decimal(l.count) + " 条）</h2><br>")
    ensures l.Title? ==>
      Framed(text, "<h3>" + BoldOpen + Decimal(l.number) + ".</span> " + BoldOpen,
             Display(l.title, format) + "</span></h3>")
    ensures l.Picture? ==>
      Framed(text, "<img src=\"" + Display(l.url, format), "\" style=\"max-width:100%\"><br>")
    ensures l.Summary? ==> text == Display(l.text, format) + "<br><br>"
  {
    match l
    case Heading(date, topic, count) =>
      HeadingText(date, topic, count)
    case Title(number, title) =>
      var t := "<h3>" + BoldOpen + Decimal(number) + ".</span> " + BoldOpen;
      var u := Display(title, format) + "</span></h3>";
      assert (t + u)[..|t|] == t;
      assert (t + u)[|t + u| - |u|..] == u;
      t + u
    case Picture(url) =>
      var t := "<img src=\"" + Display(url, format);
      var u := "\" style=\"max-width:100%\"><br>";
      assert (t + u)[..|t|] == t;
      assert (t + u)[|t + u| - |u|..] == u;
      t + u
    case Summary(text) =>
      Display(text, format) + "<br><br>"
  }

  /** The header line: the date, the topic and the item count. */
  function HeadingText(date: string, topic: string, count: nat): (text: string)
    ensures Framed(text, "<h2>" + date + " " + topic + " 资讯精选（共 ", Decimal(count) + " 条）</h2><br>")
  {
    var t := "<h2>" + date + " " + topic + " 资讯精选（共 ";
    var u := Decimal(count) + " 条）</h2><br>";
    assert (t + u)[..|t|] == t;
    assert (t + u)[|t + u| - |u|..] == u;
    t + u
  }

  /** The header states the count unambiguously: two headers that read alike carry the same count. */
  lemma HeadingDeterminesCount(date: string, topic: string, m: nat, n: nat)
    ensures HeadingText(date, topic, m) == HeadingText(date, topic, n) ==> m == n
  {
    var t := "<h2>" + date + " " + topic + " 资讯精选（共 ";
    var u := " 条）</h2><br>";
    if HeadingText(date, topic, m) == HeadingText(date, topic, n) {
      var a := t + Decimal(m) + u;
      var b := t + Decimal(n) + u;
      assert a == HeadingText(date, topic, m);
      assert b == HeadingText(date, topic, n);
      assert |Decimal(m)| == |Decimal(n)|;
      assert a[|t|..|t| + |Decimal(m)|] == Decimal(m);
      assert b[|t|..|t| + |Decimal(n)|] == Decimal(n);
      assert ValueOf(Decimal(m)) == m;
    }
  }

  /**
   * The article. It starts with the header naming the date, the topic and the
   * number of items; with no items it is the header alone; otherwise it ends
   * with the last item's description followed by `<br><br>`.
   */
  function Render(items: seq<Item>, date: string, topic: string, format: Json -> string): (article: string)
    ensures StartsWith(article, HeadingText(date, topic, |items|))
    ensures |items| == 0 ==> article == HeadingText(date, topic, |items|)
    ensures |items| > 0 ==>
      EndsWith(article, Display(Field(items[|items| - 1], "description"), format) + "<br><br>")
  {
    RenderEnds(items, date, topic, format);
    Concat(Map(Layout(items, date, topic), (l: Line) => LineText(l, format)))
  }

  lemma RenderEnds(items: seq<Item>, date: string, topic: string, format: Json -> string)
    ensures var article := Concat(Map(Layout(items, date, topic), (l: Line) => LineText(l, format)));
      && StartsWith(article, HeadingText(date, topic, |items|))
      && (|items| == 0 ==> article == HeadingText(date, topic, |items|))
      && (|items| > 0 ==>
        EndsWith(article, Display(Field(items[|items| - 1], "description"), format) + "<br><br>"))
  {
    var lines := Layout(items, date, topic);
    var texts := Map(lines, (l: Line) => LineText(l, format));
    assert texts[0] == HeadingText(date, topic, |items|);
    ConcatStartsWithFirst(texts);
    if |items| > 0 {
      LastLine(items, date, topic);
      assert texts[|texts| - 1] == LineText(lines[|lines| - 1], format);
      ConcatEndsWithLast(texts);
    } else {
      assert lines == [Heading(date, topic, 0)];
      assert Concat(texts) == texts[0] + Concat([]);
    }
  }

  /** The last line of a non-empty report is the last item's description. */
  lemma LastLine(items: seq<Item>, date: string, topic: string)
    requires |items| > 0
    ensures var lines := Layout(items, date, topic);
      lines[|lines| - 1] == Summary(Field(items[|items| - 1], "description"))
  {
    LastBlockLine(Map(items, ShownOf), 1);
  }

  lemma {:induction false} LastBlockLine(items: seq<Shown>, first: nat)
    requires |items| > 0
    ensures var lines := Blocks(items, first);
      |lines| > 0 && lines[|lines| - 1] == Summary(items[|items| - 1].description)
    decreases |items|
  {
    if |items| > 1 {
      LastBlockLine(items[1..], first + 1);
    }
  }
}

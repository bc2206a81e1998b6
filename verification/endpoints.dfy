/**
 * The push endpoints of `push_wechat_article_to_bark`: the configuration
 * string is split at commas, blank pieces are dropped, and each remaining
 * piece is stripped of surrounding whitespace and then of every trailing `/`.
 */
module Endpoints {
  import opened Text
  import opened Seqs

  /** `u.strip()` is truthy. */
  predicate NonBlank(piece: string) {
    Strip(piece) != ""
  }

  /**
   * `u.strip().rstrip("/")`: the stripped piece with its trailing slashes
   * removed. The result never ends in `/`, and it is empty only when the
   * stripped piece is all slashes.
   */
  function Clean(piece: string): (url: string)
    ensures StartsWith(Strip(piece), url)
    ensures forall k :: |url| <= k < |Strip(piece)| ==> Strip(piece)[k] == '/'
    ensures url == [] || url[|url| - 1] != '/'
    ensures url == [] || !IsSpace(url[0])
  {
    var s := Strip(piece);
    var url := TrimTrailing(s, '/');
    assert url != [] ==> url[0] == s[0];
    url
  }

  /**
   * The endpoint list for a configuration string: one entry per non-blank
   * comma-separated piece, in order, none ending in `/`, never more than there
   * are pieces, and none at all exactly when every piece is blank.
   */
  function ParseEndpoints(config: string): (urls: seq<string>)
    ensures |urls| <= |Split(config, ',')|
    ensures forall i :: 0 <= i < |urls| ==> urls[i] == [] || urls[i][|urls[i]| - 1] != '/'
    ensures urls == [] <==> forall j :: 0 <= j < |Split(config, ',')| ==> IsBlank(Split(config, ',')[j])
  {
    var pieces := Split(config, ',');
    NoneKeptIffAllBlank(pieces);
    CleanedEndWithoutSlash(Filter(pieces, NonBlank));
    Map(Filter(pieces, NonBlank), Clean)
  }

  lemma CleanedEndWithoutSlash(pieces: seq<string>)
    ensures var urls := Map(pieces, Clean);
      forall i :: 0 <= i < |urls| ==> urls[i] == [] || urls[i][|urls[i]| - 1] != '/'
  {
    var urls := Map(pieces, Clean);
    forall i | 0 <= i < |urls|
      ensures urls[i] == [] || urls[i][|urls[i]| - 1] != '/'
    {
      assert urls[i] == Clean(pieces[i]);
    }
  }

  lemma {:induction false} NoneKeptIffAllBlank(pieces: seq<string>)
    ensures Filter(pieces, NonBlank) == [] <==> forall j :: 0 <= j < |pieces| ==> IsBlank(pieces[j])
    decreases |pieces|
  {
    if |pieces| > 0 {
      NoneKeptIffAllBlank(pieces[1..]);
      assert forall j :: 1 <= j < |pieces| ==> pieces[j] == pieces[1..][j - 1];
    }
  }

  /**
   * Every entry comes from its own piece: the entries are the cleaned
   * non-blank pieces at strictly increasing positions of the split, and a
   * piece yields an entry exactly when it is not blank.
   */
  lemma EndpointsFromPieces(config: string)
    ensures var pieces := Split(config, ',');
      var urls := ParseEndpoints(config);
      var idx := KeptIndices(pieces, NonBlank);
      && |idx| == |urls|
      && (forall k :: 0 <= k < |idx| ==> idx[k] < |pieces| && urls[k] == Clean(pieces[idx[k]]))
      && (forall k, l :: 0 <= k < l < |idx| ==> idx[k] < idx[l])
      && (forall j :: 0 <= j < |pieces| ==> (!IsBlank(pieces[j]) <==> j in idx))
  {
    FilterIsKeptSubsequence(Split(config, ','), NonBlank);
  }

  /**
   * A configuration written as a comma-joined list of non-blank pieces yields
   * exactly those pieces, cleaned, in order.
   */
  lemma EndpointsOfJoin(pieces: seq<string>)
    requires |pieces| >= 1
    requires forall i :: 0 <= i < |pieces| ==> ',' !in pieces[i] && NonBlank(pieces[i])
    ensures ParseEndpoints(Join(pieces, ',')) == Map(pieces, Clean)
  {
    SplitJoin(pieces, ',');
    FilterKeepsAll(pieces, NonBlank);
  }

  /** A piece that is only a slash inside whitespace still yields an entry, the empty one. */
  lemma SlashOnlyPiece()
    ensures ParseEndpoints(" / ") == [""]
  {
    var s := " / ";
    assert Split(s, ',') == [s] by {
      SplitJoin([s], ',');
    }
    assert Strip(s) == "/" by {
      assert LeadingSpaces(s) == 1;
      assert TrailingSpaces(s[1..]) == 1;
    }
    assert NonBlank(s);
    assert Filter([s], NonBlank) == [s];
    assert TrailingRun("/", '/') == 1;
  }
}

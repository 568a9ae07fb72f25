/** `get_top10_details(type_, date)`: fetch one ranking window, take its first
    ten contents in the order given, and normalise each into a record, with the
    asset URLs from the page-list endpoint or, when that returned nothing, from
    the reconstruction. The endpoints are oracles giving what the retried
    getters finally return, or the exception their validators raise. */
module Aggregate {
  import opened Common
  import opened Json
  import opened Reconstruct

  /** The parameters of `_get_ranking(p, content, mode, date)`. */
  datatype RankingQuery = RankingQuery(p: nat, content: string, mode: string, date: Option<string>)

  /** The origin as seen through the endpoint wrappers: `get_ranking_*`,
      `get_illust(id)`, `_get_illust_pages(id)` and the HEAD status of a URL.
      A getter gives the payload its validator finally returned (`{}` when every
      attempt failed) or the exception the validator raised, which the retry
      combinator does not catch. */
  datatype Origin = Origin(
    ranking: RankingQuery -> Result<Json>,
    detail: Json -> Result<Json>,
    pages: Json -> Result<Json>,
    head: string -> Option<int>)

  /** Each element of the output `illusts`. */
  datatype IllustRecord = IllustRecord(
    illustId: Json, illustTitle: Json, restrict: Json, xRestrict: Json, sl: Json,
    urls: Json, tags: seq<Json>, userId: Json, userName: Json)

  /** The returned `{"type": ..., "date": ..., "illusts": [...]}`. */
  datatype Snapshot = Snapshot(kind: string, date: Json, illusts: seq<IllustRecord>)

  /** How many items the pipeline keeps. */
  const TopCount: nat := 10

  /** The ranking mode `type_` selects: "monthly", "weekly", and daily for anything else. */
  function ModeFor(kind: string): string
  {
    if kind == "monthly" then "monthly" else if kind == "weekly" then "weekly" else "daily"
  }

  /** The query the selected `get_ranking_*` sends (page 1, content "illust"). */
  function QueryFor(kind: string, date: Option<string>): RankingQuery
  {
    RankingQuery(1, "illust", ModeFor(kind), date)
  }

  /** `x[:10]` followed by iteration: a list gives its first ten elements; an
      empty string gives nothing; a non-empty string fails at the first element
      (a one-character string subscripted by a key); anything else cannot be sliced. */
  function TopOf(j: Json): Result<seq<Json>>
  {
    match j
    case JArr(xs) => Ok(if |xs| <= TopCount then xs else xs[..TopCount])
    case JStr(s) => if s == [] then Ok([]) else Err(TypeError)
    case _ => Err(TypeError)
  }

  /** `for t in x` where every `t` is then subscripted by a key: a list gives its
      elements; an empty dict or string nothing; a non-empty dict or string
      yields strings, and subscripting the first raises TypeError. */
  function Elements(j: Json): Result<seq<Json>>
  {
    match j
    case JArr(xs) => Ok(xs)
    case JObj(m) => if m == map[] then Ok([]) else Err(TypeError)
    case JStr(s) => if s == [] then Ok([]) else Err(TypeError)
    case _ => Err(TypeError)
  }

  /** `t["tag"]`. */
  function TagOf(t: Json): Result<Json>
  {
    Get(t, "tag")
  }

  /** `[t["tag"] for t in illust_info["tags"]["tags"]]`. */
  function TagsOf(info: Json): Result<seq<Json>>
  {
    var outer :- Get(info, "tags");
    var inner :- Get(outer, "tags");
    var items :- Elements(inner);
    Collect(items, TagOf)
  }

  /** The JSON form of one reconstructed page. */
  function EntryJson(e: PageEntry): Json
  {
    JObj(map[
      "urls" := JObj(map[
        "thumb_mini" := JStr(e.thumbMini),
        "small" := JStr(e.small),
        "regular" := JStr(e.regular),
        "original" := JStr(e.original)]),
      "width" := JNum(e.width),
      "height" := JNum(e.height)])
  }

  function EntriesJson(es: seq<PageEntry>): (r: seq<Json>)
    ensures |r| == |es| && forall k :: 0 <= k < |es| ==> r[k] == EntryJson(es[k])
  {
    seq(|es|, k requires 0 <= k < |es| => EntryJson(es[k]))
  }

  /** The id as the URL templates render it. It is rendered only when some
      template is evaluated: a timestamp was found and there is at least one page. */
  function RenderedId(id: Json, url: string, pageCount: int): Result<string>
  {
    if FindTimestamp(url, 0).Some? && PageRange(pageCount) > 0 then Str(id) else Ok("")
  }

  /** `get_original_imgurls(pixiv, illust_id, content["url"], int(content["illust_page_count"]))`,
      with its arguments evaluated in Python's order. */
  function ReconstructedUrls(content: Json, id: Json, head: string -> Option<int>): Result<Json>
  {
    var url :- Get(content, "url");
    var count :- Get(content, "illust_page_count");
    var n :- PyInt(count);
    if !url.JStr? then Err(TypeError)  // re.search on something that is not a string
    else
      var idText :- RenderedId(id, url.s, n);
      Ok(JArr(EntriesJson(Reconstruction(idText, url.s, n, head))))
  }

  /** `illust_urls`: the page list when it is non-empty, else the reconstruction. */
  function ItemUrls(content: Json, id: Json, listed: Json, head: string -> Option<int>): Result<Json>
  {
    if Truthy(listed) then Ok(listed) else ReconstructedUrls(content, id, head)
  }

  /** The record literal appended for one item, read from its detail `info`. */
  function RecordOf(info: Json, urls: Json): Result<IllustRecord>
  {
    var illustId :- Get(info, "illustId");
    var title :- Get(info, "illustTitle");
    var restrict :- Get(info, "restrict");
    var xRestrict :- Get(info, "xRestrict");
    var sl :- Get(info, "sl");
    var tags :- TagsOf(info);
    var userId :- Get(info, "userId");
    var userName :- Get(info, "userName");
    Ok(IllustRecord(illustId, title, restrict, xRestrict, sl, urls, tags, userId, userName))
  }

  /** One pass of the loop body of `get_top10_details` for `content`. The first
      exception comes from `illust_id`, then from the detail getter, then from
      the page-list getter, then from the fallback, then from the record literal. */
  function NormalizeItem(content: Json, o: Origin): Result<IllustRecord>
  {
    var id :- Get(content, "illust_id");
    var info :- o.detail(id);
    var listed :- o.pages(id);
    var urls :- ItemUrls(content, id, listed, o.head);
    RecordOf(info, urls)
  }

  /** What `get_top10_details(kind, date)` returns, or the exception it raises. */
  function Top10(kind: string, date: Option<string>, o: Origin): Result<Snapshot>
  {
    var data :- o.ranking(QueryFor(kind, date));
    var contents :- Get(data, "contents");
    var selected :- TopOf(contents);
    var illusts :- Collect(selected, (c: Json) => NormalizeItem(c, o));
    var d :- Get(data, "date");
    Ok(Snapshot(kind, d, illusts))
  }

  // ---- the imperative pipeline ---------------------------------------------------

  /** The loop body for one content item. It exists beside `NormalizeItem`
      because the fallback runs the imperative page loop `GetOriginalImgUrls`;
      the record literal is `RecordOf`. */
  method NormalizeContent(content: Json, o: Origin) returns (r: Result<IllustRecord>)
    ensures r == NormalizeItem(content, o)
  {
    var illustId :- Get(content, "illust_id");
    var illustInfo :- o.detail(illustId);
    var illustUrls :- o.pages(illustId);
    if !Truthy(illustUrls) {
      var url :- Get(content, "url");
      var count :- Get(content, "illust_page_count");
      var pageCount :- PyInt(count);
      if !url.JStr? {
        return Err(TypeError);
      }
      var idText :- RenderedId(illustId, url.s, pageCount);
      var entries := GetOriginalImgUrls(idText, url.s, pageCount, o.head);
      illustUrls := JArr(EntriesJson(entries));
    }
    r := RecordOf(illustInfo, illustUrls);
  }

  /** The `for content in ...` loop: one record per selected item, in order,
      stopping at the first exception. */
  method NormalizeAll(selected: seq<Json>, o: Origin) returns (r: Result<seq<IllustRecord>>)
    ensures r == Collect(selected, (c: Json) => NormalizeItem(c, o))
  {
    ghost var f := (c: Json) => NormalizeItem(c, o);
    var illusts: seq<IllustRecord> := [];
    for i := 0 to |selected|
      invariant Collect(selected[..i], f) == Ok(illusts)
    {
      var item := NormalizeContent(selected[i], o);
      CollectStep(selected, i, f, illusts);
      if item.Err? {
        return Err(item.error);
      }
      illusts := illusts + [item.value];
    }
    assert selected[..|selected|] == selected;
    r := Ok(illusts);
  }

  /** `get_top10_details`: select the getter by `kind`, then append one record
      per selected content item, stopping at the first exception. */
  method GetTop10Details(kind: string, date: Option<string>, o: Origin) returns (r: Result<Snapshot>)
    ensures r == Top10(kind, date, o)
  {
    var answer;
    if kind == "monthly" {
      answer := o.ranking(RankingQuery(1, "illust", "monthly", date));
    } else if kind == "weekly" {
      answer := o.ranking(RankingQuery(1, "illust", "weekly", date));
    } else {
      answer := o.ranking(RankingQuery(1, "illust", "daily", date));
    }
    var rankingData :- answer;
    var contents :- Get(rankingData, "contents");
    var selected :- TopOf(contents);
    var illusts :- NormalizeAll(selected, o);
    var d :- Get(rankingData, "date");
    r := Ok(Snapshot(kind, d, illusts));
  }

  // ---- properties ----------------------------------------------------------------

  /** A successful run keeps the first min(10, |contents|) items, in the order
      given, each normalised from the content at the same position; date comes
      from the ranking response and kind is the requested one. */
  lemma Top10Shape(kind: string, date: Option<string>, o: Origin)
    requires Top10(kind, date, o).Ok?
    ensures o.ranking(QueryFor(kind, date)).Ok?
    ensures var data := o.ranking(QueryFor(kind, date)).value;
            var s := Top10(kind, date, o).value;
            data.JObj? && "contents" in data.fields && "date" in data.fields &&
            s.kind == kind && s.date == data.fields["date"] &&
            TopOf(data.fields["contents"]).Ok? &&
            var selected := TopOf(data.fields["contents"]).value;
            |s.illusts| == |selected| &&
            forall j :: 0 <= j < |selected| ==>
              NormalizeItem(selected[j], o).Ok? && s.illusts[j] == NormalizeItem(selected[j], o).value
  {
    var data := o.ranking(QueryFor(kind, date)).value;
    var selected := TopOf(data.fields["contents"]).value;
    CollectOk(selected, (c: Json) => NormalizeItem(c, o));
  }

  /** The prefix `[:10]`: at most ten items, and they are the first ones. */
  lemma TopOfIsPrefix(xs: seq<Json>)
    ensures TopOf(JArr(xs)).Ok?
    ensures var sel := TopOf(JArr(xs)).value;
            |sel| == (if |xs| <= TopCount then |xs| else TopCount) &&
            forall j :: 0 <= j < |sel| ==> sel[j] == xs[j]
  {
  }

  /** The run succeeds exactly when the ranking getter returns, its payload holds
      `contents` and `date`, the contents can be sliced, and every selected item
      normalises. */
  lemma Top10OkIff(kind: string, date: Option<string>, o: Origin)
    ensures var answer := o.ranking(QueryFor(kind, date));
            var data := if answer.Ok? then answer.value else Empty;
            Top10(kind, date, o).Ok? <==>
              (answer.Ok? && Get(data, "contents").Ok? && TopOf(Get(data, "contents").value).Ok? &&
               (forall j :: 0 <= j < |TopOf(Get(data, "contents").value).value| ==>
                  NormalizeItem(TopOf(Get(data, "contents").value).value[j], o).Ok?) &&
               Get(data, "date").Ok?)
  {
    var answer := o.ranking(QueryFor(kind, date));
    var data := if answer.Ok? then answer.value else Empty;
    if answer.Ok? && Get(data, "contents").Ok? && TopOf(Get(data, "contents").value).Ok? {
      CollectOk(TopOf(Get(data, "contents").value).value, (c: Json) => NormalizeItem(c, o));
    }
  }

  /** An item whose detail fetch came back as the `{}` sentinel is not skipped:
      normalising it raises (KeyError "illustId", unless an earlier step already
      raised). */
  lemma FailedDetailRaises(content: Json, o: Origin)
    requires Get(content, "illust_id").Ok?
    requires o.detail(Get(content, "illust_id").value) == Ok(Empty)
    ensures NormalizeItem(content, o).Err?
  {
  }

  /** ... and so the whole run raises, if any selected item's detail failed. */
  lemma FailedDetailAbortsRun(kind: string, date: Option<string>, o: Origin, j: nat)
    requires o.ranking(QueryFor(kind, date)).Ok?
    requires var data := o.ranking(QueryFor(kind, date)).value;
             Get(data, "contents").Ok? && TopOf(Get(data, "contents").value).Ok? &&
             var selected := TopOf(Get(data, "contents").value).value;
             j < |selected| && Get(selected[j], "illust_id").Ok? &&
             o.detail(Get(selected[j], "illust_id").value) == Ok(Empty)
    ensures Top10(kind, date, o).Err?
  {
    var data := o.ranking(QueryFor(kind, date)).value;
    var selected := TopOf(Get(data, "contents").value).value;
    FailedDetailRaises(selected[j], o);
    Top10OkIff(kind, date, o);
  }

  /** An exception raised by the detail or page-list validator is not caught:
      normalising the item raises it, the detail's first. */
  lemma GetterErrorRaises(content: Json, o: Origin)
    requires Get(content, "illust_id").Ok?
    ensures var id := Get(content, "illust_id").value;
            (o.detail(id).Err? ==> NormalizeItem(content, o) == Err(o.detail(id).error)) &&
            (o.detail(id).Ok? && o.pages(id).Err? ==> NormalizeItem(content, o) == Err(o.pages(id).error))
  {
  }

  /** ... and an exception raised by the ranking validator ends the run with it. */
  lemma RankingErrorRaises(kind: string, date: Option<string>, o: Origin)
    requires o.ranking(QueryFor(kind, date)).Err?
    ensures Top10(kind, date, o) == Err(o.ranking(QueryFor(kind, date)).error)
  {
  }

  /** The record's urls are the page list when it is non-empty, and otherwise
      the reconstruction from the item's `url` and `illust_page_count`. */
  lemma UrlsChoice(content: Json, o: Origin)
    requires NormalizeItem(content, o).Ok?
    ensures var id := Get(content, "illust_id").value;
            o.detail(id).Ok? && o.pages(id).Ok? &&
            var listed := o.pages(id).value;
            var urls := NormalizeItem(content, o).value.urls;
            (Truthy(listed) ==> urls == listed) &&
            (!Truthy(listed) ==>
               var url := Get(content, "url").value;
               var n := PyInt(Get(content, "illust_page_count").value).value;
               url.JStr? &&
               urls == JArr(EntriesJson(Reconstruction(RenderedId(id, url.s, n).value, url.s, n, o.head))))
  {
    NormalizeItemUrls(content, o);
  }

  /** The record literal stores the `urls` it is given. */
  lemma RecordKeepsUrls(info: Json, urls: Json)
    requires RecordOf(info, urls).Ok?
    ensures RecordOf(info, urls).value.urls == urls
  {
  }

  /** A normalised record's urls are `illust_urls`. */
  lemma NormalizeItemUrls(content: Json, o: Origin)
    requires NormalizeItem(content, o).Ok?
    ensures Get(content, "illust_id").Ok?
    ensures var id := Get(content, "illust_id").value;
            o.detail(id).Ok? && o.pages(id).Ok? &&
            ItemUrls(content, id, o.pages(id).value, o.head).Ok? &&
            NormalizeItem(content, o).value.urls == ItemUrls(content, id, o.pages(id).value, o.head).value
  {
    var id := Get(content, "illust_id").value;
    RecordKeepsUrls(o.detail(id).value, ItemUrls(content, id, o.pages(id).value, o.head).value);
  }

  /** When the page list is empty and the listing URL has a timestamp, the
      record gets exactly `int(illust_page_count)` reconstructed pages (none for
      a negative count). */
  lemma FallbackPageCount(content: Json, o: Origin)
    requires NormalizeItem(content, o).Ok?
    requires o.pages(Get(content, "illust_id").value).Ok?
    requires !Truthy(o.pages(Get(content, "illust_id").value).value)
    requires FindTimestamp(Get(content, "url").value.s, 0).Some?
    ensures var n := PyInt(Get(content, "illust_page_count").value).value;
            var urls := NormalizeItem(content, o).value.urls;
            urls.JArr? && |urls.items| == PageRange(n)
  {
    var id := Get(content, "illust_id").value;
    var url := Get(content, "url").value;
    var n := PyInt(Get(content, "illust_page_count").value).value;
    UrlsChoice(content, o);
    ReconstructionShape(RenderedId(id, url.s, n).value, url.s, n, o.head);
  }

  /** The tags keep the order of `tags.tags[*].tag`. */
  lemma TagsInOrder(info: Json)
    requires TagsOf(info).Ok?
    ensures var items := Elements(info.fields["tags"].fields["tags"]).value;
            |TagsOf(info).value| == |items| &&
            forall k :: 0 <= k < |items| ==>
              items[k].JObj? && "tag" in items[k].fields && TagsOf(info).value[k] == items[k].fields["tag"]
  {
    var items := Elements(info.fields["tags"].fields["tags"]).value;
    CollectOk(items, TagOf);
    forall k | 0 <= k < |items|
      ensures items[k].JObj? && "tag" in items[k].fields && TagsOf(info).value[k] == items[k].fields["tag"]
    {
      assert TagOf(items[k]).Ok?;
    }
  }
}

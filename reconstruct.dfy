/** `get_original_imgurls`: rebuild the per-page asset URLs of an illustration
    from its listing URL when the page-list endpoint returned nothing. The
    listing URL embeds the publish time as `YYYY/MM/DD/HH/mm/ss`; three
    derivative URLs follow by templating, and the original's file extension is
    found by HEAD-probing jpg, png and gif in that order (`head(url)` is the
    status of that probe, None when the transport failed). */
module Reconstruct {
  import opened Common
  import opened Json

  const IllustHost: string := "https://i.pximg.net"

  /** Length of a match of `[0-9]{4}/[0-9]{2}/[0-9]{2}/[0-9]{2}/[0-9]{2}/[0-9]{2}`. */
  const TimestampLength: nat := 19

  /** Character `c` is allowed at position `j` of the timestamp pattern. */
  predicate FitsPattern(j: nat, c: char)
  {
    if j == 4 || j == 7 || j == 10 || j == 13 || j == 16 then c == '/' else IsDigit(c)
  }

  /** The timestamp pattern matches `s` at index `k`. */
  predicate TimestampAt(s: string, k: nat)
  {
    k + TimestampLength <= |s| && forall j :: k <= j < k + TimestampLength ==> FitsPattern(j - k, s[j])
  }

  /** `re.search` with the timestamp pattern, from index `from` on: the leftmost
      index where it matches, or None when it matches nowhere. */
  function FindTimestamp(s: string, from: nat): (r: Option<nat>)
    ensures r.Some? ==> from <= r.value && TimestampAt(s, r.value)
    ensures r.Some? ==> forall k :: from <= k < r.value ==> !TimestampAt(s, k)
    ensures r.None? ==> forall k :: from <= k ==> !TimestampAt(s, k)
    decreases |s| - from
  {
    if from + TimestampLength > |s| then None
    else if TimestampAt(s, from) then Some(from)
    else FindTimestamp(s, from + 1)
  }

  // ---- templates ---------------------------------------------------------------

  /** The path segment that identifies page `i`: `/<timestamp>/<id>_p<i>`. */
  function PageTag(date: string, id: string, i: nat): string
  {
    PageHead(date, id) + NatToString(i)
  }

  function PageHead(date: string, id: string): string
  {
    "/" + date + "/" + id + "_p"
  }

  /** Every template has the shape `<prefix>/<timestamp>/<id>_p<i><suffix>`. */
  function PageUrl(prefix: string, date: string, id: string, i: nat, suffix: string): string
  {
    prefix + PageTag(date, id, i) + suffix
  }

  /** `{host}/c/128x128/img-master/img/{date}/{id}_p{i}_square1200.jpg` */
  function ThumbMiniUrl(date: string, id: string, i: nat): string
  {
    PageUrl(IllustHost + "/c/128x128/img-master/img", date, id, i, "_square1200.jpg")
  }

  /** `{host}/c/540x540_70/img-master/img/{date}/{id}_p{i}_master1200.jpg` */
  function SmallUrl(date: string, id: string, i: nat): string
  {
    PageUrl(IllustHost + "/c/540x540_70/img-master/img", date, id, i, "_master1200.jpg")
  }

  /** `{host}/img-master/img/{date}/{id}_p{i}_master1200.jpg` */
  function RegularUrl(date: string, id: string, i: nat): string
  {
    PageUrl(IllustHost + "/img-master/img", date, id, i, "_master1200.jpg")
  }

  /** `urlnotype`, `{host}/img-original/img/{date}/{id}_p{i}`: the original's URL
      without its extension. */
  function OriginalStem(date: string, id: string, i: nat): string
  {
    PageUrl(IllustHost + "/img-original/img", date, id, i, "")
  }

  // ---- extension probe ---------------------------------------------------------

  const Candidates: seq<string> := ["jpg", "png", "gif"]

  /** The probe of candidate `j` answers 200. */
  predicate Hit(stem: string, head: string -> Option<int>, j: nat)
    requires j < |Candidates|
  {
    head(stem + "." + Candidates[j]) == Some(200)
  }

  /** Index of the first candidate whose probe answers 200; |Candidates| when none does. */
  function FirstHit(stem: string, head: string -> Option<int>): nat
  {
    if Hit(stem, head, 0) then 0 else if Hit(stem, head, 1) then 1 else if Hit(stem, head, 2) then 2 else 3
  }

  /** The extension the probe settles on. */
  function ProbedExtension(stem: string, head: string -> Option<int>): (t: string)
    ensures t in Candidates
    ensures forall j :: 0 <= j < |Candidates| && Hit(stem, head, j) ==>
              exists i :: 0 <= i <= j && t == Candidates[i] && Hit(stem, head, i) &&
                          forall h :: 0 <= h < i ==> !Hit(stem, head, h)
    ensures (forall j :: 0 <= j < |Candidates| ==> !Hit(stem, head, j)) ==> t == "jpg"
  {
    var k := FirstHit(stem, head);
    if k < |Candidates| then Candidates[k] else "jpg"
  }

  /** The inner `for t in ("jpg", "png", "gif")` loop with its `break`; `probes`
      counts the HEAD requests it sends. */
  method ProbeExtension(stem: string, head: string -> Option<int>) returns (ftype: string, probes: nat)
    ensures ftype == ProbedExtension(stem, head)
    ensures probes == if FirstHit(stem, head) < |Candidates| then FirstHit(stem, head) + 1 else |Candidates|
  {
    ftype := "jpg";
    probes := 0;
    var j := 0;
    while j < |Candidates|
      invariant 0 <= j <= |Candidates|
      invariant probes == j && ftype == "jpg"
      invariant forall h :: 0 <= h < j ==> !Hit(stem, head, h)
    {
      probes := probes + 1;
      if head(stem + "." + Candidates[j]) == Some(200) {
        ftype := Candidates[j];
        break;
      }
      j := j + 1;
    }
  }

  // ---- the reconstruction ------------------------------------------------------

  /** One element of the reconstructed list: `{"urls": {...}, "width": 0, "height": 0}`. */
  datatype PageEntry = PageEntry(thumbMini: string, small: string, regular: string, original: string,
                                 width: int, height: int)

  /** The entry built for page `i`. */
  function EntryFor(date: string, id: string, i: nat, head: string -> Option<int>): PageEntry
  {
    var stem := OriginalStem(date, id, i);
    PageEntry(ThumbMiniUrl(date, id, i), SmallUrl(date, id, i), RegularUrl(date, id, i),
              stem + "." + ProbedExtension(stem, head), 0, 0)
  }

  /** Python's `range(page_count)` length. */
  function PageRange(pageCount: int): nat
  {
    if pageCount < 0 then 0 else pageCount
  }

  /** What `get_original_imgurls(pixiv, id, url, page_count)` returns, with `id`
      already rendered by `str()`. */
  function Reconstruction(id: string, url: string, pageCount: int, head: string -> Option<int>): seq<PageEntry>
  {
    match FindTimestamp(url, 0)
    case None => []
    case Some(k) =>
      Pages(url[k..k + TimestampLength], id, PageRange(pageCount), head)
  }

  /** The values `f(0) .. f(n-1)`, in order. */
  function Tabulate<T>(f: nat -> T, n: nat): (r: seq<T>)
    ensures |r| == n
  {
    if n == 0 then [] else Tabulate(f, n - 1) + [f(n - 1)]
  }

  lemma {:induction false} TabulateAt<T>(f: nat -> T, n: nat, j: nat)
    requires j < n
    ensures Tabulate(f, n)[j] == f(j)
  {
    if j < n - 1 {
      TabulateAt(f, n - 1, j);
    }
  }

  /** Page number to entry, for one listing. */
  function EntryOf(date: string, id: string, head: string -> Option<int>): nat -> PageEntry
  {
    (i: nat) => EntryFor(date, id, i, head)
  }

  /** The entries of pages 0 .. n-1, in page order. */
  function Pages(date: string, id: string, n: nat, head: string -> Option<int>): (r: seq<PageEntry>)
    ensures |r| == n
  {
    Tabulate(EntryOf(date, id, head), n)
  }

  /** Entry j of the page list is page j's entry. */
  lemma PagesAt(date: string, id: string, n: nat, head: string -> Option<int>, j: nat)
    requires j < n
    ensures Pages(date, id, n, head)[j] == EntryFor(date, id, j, head)
  {
    TabulateAt(EntryOf(date, id, head), n, j);
  }

  /** The loop body for page `i`, statement by statement: the three templated
      URLs, then the original with the probed extension. `EntryFor` is its
      specification and the form the lemmas reason about. */
  method BuildPage(date: string, id: string, i: nat, head: string -> Option<int>) returns (entry: PageEntry)
    ensures entry == EntryFor(date, id, i, head)
  {
    var stem := OriginalStem(date, id, i);
    var ftype, _ := ProbeExtension(stem, head);
    entry := PageEntry(ThumbMiniUrl(date, id, i), SmallUrl(date, id, i), RegularUrl(date, id, i),
                       stem + "." + ftype, 0, 0);
  }

  /** The `for i in range(page_count)` loop, appending one entry per page; its
      specification is `Pages`. */
  method BuildPages(date: string, id: string, n: nat, head: string -> Option<int>) returns (urls: seq<PageEntry>)
    ensures urls == Pages(date, id, n, head)
  {
    urls := [];
    for i := 0 to n
      invariant urls == Pages(date, id, i, head)
    {
      var entry := BuildPage(date, id, i, head);
      urls := urls + [entry];
    }
  }

  /** `get_original_imgurls`: no timestamp in the listing URL gives the empty
      list; otherwise the page loop runs with the leftmost timestamp. */
  method GetOriginalImgUrls(id: string, url: string, pageCount: int, head: string -> Option<int>)
    returns (urls: seq<PageEntry>)
    ensures urls == Reconstruction(id, url, pageCount, head)
  {
    var found := FindTimestamp(url, 0);
    if found.None? {
      return [];
    }
    var date := url[found.value..found.value + TimestampLength];
    urls := BuildPages(date, id, PageRange(pageCount), head);
  }

  // ---- properties --------------------------------------------------------------

  /** `u` contains the page tag of page `i`, and the tag is not followed by
      another digit (so page 1 is not mistaken for page 10). */
  ghost predicate EmbedsPage(u: string, date: string, id: string, i: nat)
  {
    exists k: nat :: OccursAt(PageTag(date, id, i), u, k) && k + |PageTag(date, id, i)| < |u| &&
                     !IsDigit(u[k + |PageTag(date, id, i)|])
  }

  lemma EmbedsInPageUrl(prefix: string, date: string, id: string, i: nat, suffix: string)
    requires suffix != [] && !IsDigit(suffix[0])
    ensures EmbedsPage(PageUrl(prefix, date, id, i, suffix), date, id, i)
  {
    var t := PageTag(date, id, i);
    var u := PageUrl(prefix, date, id, i, suffix);
    assert u[|prefix|..|prefix| + |t|] == t;
    assert u[|prefix| + |t|] == suffix[0];
    assert OccursAt(t, u, |prefix|);
  }

  /** The stem with an extension appended is a page URL with suffix `.ext`. */
  lemma StemPlusExtension(prefix: string, date: string, id: string, i: nat, ext: string)
    ensures PageUrl(prefix, date, id, i, "") + "." + ext == PageUrl(prefix, date, id, i, "." + ext)
  {
    var t := PageTag(date, id, i);
    assert prefix + t + "" == prefix + t;
  }

  /** All four URLs of page `i`'s entry embed the timestamp, the id and `_p<i>`. */
  lemma EntryEmbedsPage(date: string, id: string, i: nat, head: string -> Option<int>)
    ensures var e := EntryFor(date, id, i, head);
            EmbedsPage(e.thumbMini, date, id, i) && EmbedsPage(e.small, date, id, i) &&
            EmbedsPage(e.regular, date, id, i) && EmbedsPage(e.original, date, id, i)
  {
    EmbedsInPageUrl(IllustHost + "/c/128x128/img-master/img", date, id, i, "_square1200.jpg");
    EmbedsInPageUrl(IllustHost + "/c/540x540_70/img-master/img", date, id, i, "_master1200.jpg");
    EmbedsInPageUrl(IllustHost + "/img-master/img", date, id, i, "_master1200.jpg");
    var ext := ProbedExtension(OriginalStem(date, id, i), head);
    StemPlusExtension(IllustHost + "/img-original/img", date, id, i, ext);
    EmbedsInPageUrl(IllustHost + "/img-original/img", date, id, i, "." + ext);
  }

  /** The shape of a reconstruction: nothing without a timestamp; otherwise one
      entry per page, each embedding the leftmost timestamp of the listing URL,
      the id and its own page number in all four URLs, with width and height 0
      and an original whose extension is one of the probed candidates. */
  lemma ReconstructionShape(id: string, url: string, pageCount: int, head: string -> Option<int>)
    ensures FindTimestamp(url, 0).None? ==> Reconstruction(id, url, pageCount, head) == []
    ensures FindTimestamp(url, 0).Some? ==>
              |Reconstruction(id, url, pageCount, head)| == PageRange(pageCount)
    ensures FindTimestamp(url, 0).Some? ==>
              var k := FindTimestamp(url, 0).value;
              var date := url[k..k + TimestampLength];
              TimestampAt(url, k) && (forall h :: 0 <= h < k ==> !TimestampAt(url, h)) &&
              forall i :: 0 <= i < |Reconstruction(id, url, pageCount, head)| ==>
                var e := Reconstruction(id, url, pageCount, head)[i];
                e.width == 0 && e.height == 0 &&
                EmbedsPage(e.thumbMini, date, id, i) && EmbedsPage(e.small, date, id, i) &&
                EmbedsPage(e.regular, date, id, i) && EmbedsPage(e.original, date, id, i) &&
                exists t :: t in Candidates && e.original == OriginalStem(date, id, i) + "." + t
  {
    if FindTimestamp(url, 0).Some? {
      var k := FindTimestamp(url, 0).value;
      var date := url[k..k + TimestampLength];
      forall i | 0 <= i < |Reconstruction(id, url, pageCount, head)|
        ensures var e := Reconstruction(id, url, pageCount, head)[i];
                e.width == 0 && e.height == 0 &&
                EmbedsPage(e.thumbMini, date, id, i) && EmbedsPage(e.small, date, id, i) &&
                EmbedsPage(e.regular, date, id, i) && EmbedsPage(e.original, date, id, i) &&
                exists t :: t in Candidates && e.original == OriginalStem(date, id, i) + "." + t
      {
        PagesAt(date, id, PageRange(pageCount), head, i);
        EntryEmbedsPage(date, id, i, head);
        var stem := OriginalStem(date, id, i);
        assert ProbedExtension(stem, head) in Candidates;
      }
    }
  }

  /** How many digits `w` starts with. */
  function LeadingDigits(w: string): nat
  {
    if w == [] || !IsDigit(w[0]) then 0 else 1 + LeadingDigits(w[1..])
  }

  lemma {:induction false} LeadingDigitsOf(a: string, x: string)
    requires AllDigits(a) && x != [] && !IsDigit(x[0])
    ensures LeadingDigits(a + x) == |a|
  {
    if a != [] {
      assert (a + x)[0] == a[0];
      assert (a + x)[1..] == a[1..] + x;
      LeadingDigitsOf(a[1..], x);
    } else {
      assert a + x == x;
    }
  }

  /** A string of digits followed by a non-digit is determined by where the
      first non-digit is. */
  lemma DigitsBeforeNonDigit(a: string, x: string, b: string, y: string)
    requires AllDigits(a) && AllDigits(b)
    requires x != [] && y != [] && !IsDigit(x[0]) && !IsDigit(y[0])
    requires a + x == b + y
    ensures a == b
  {
    LeadingDigitsOf(a, x);
    LeadingDigitsOf(b, y);
    assert a == (a + x)[..|a|];
    assert b == (b + y)[..|b|];
  }

  /** Two page URLs on the same template differ when their page numbers do. */
  lemma PageUrlsDistinct(prefix: string, date: string, id: string, i: nat, j: nat, x: string, y: string)
    requires i != j
    requires x != [] && y != [] && !IsDigit(x[0]) && !IsDigit(y[0])
    ensures PageUrl(prefix, date, id, i, x) != PageUrl(prefix, date, id, j, y)
  {
    var h := prefix + PageHead(date, id);
    var di, dj := NatToString(i), NatToString(j);
    assert PageUrl(prefix, date, id, i, x) == h + (di + x);
    assert PageUrl(prefix, date, id, j, y) == h + (dj + y);
    if PageUrl(prefix, date, id, i, x) == PageUrl(prefix, date, id, j, y) {
      assert (h + (di + x))[|h|..] == di + x;
      assert (h + (dj + y))[|h|..] == dj + y;
      DigitsBeforeNonDigit(di, x, dj, y);
      NatToStringInjective(i, j);
    }
  }

  /** Different pages get different thumbnails, smalls, regulars and originals. */
  lemma PagesAreDistinct(date: string, id: string, i: nat, j: nat, head: string -> Option<int>)
    requires i != j
    ensures EntryFor(date, id, i, head).thumbMini != EntryFor(date, id, j, head).thumbMini
    ensures EntryFor(date, id, i, head).small != EntryFor(date, id, j, head).small
    ensures EntryFor(date, id, i, head).regular != EntryFor(date, id, j, head).regular
    ensures EntryFor(date, id, i, head).original != EntryFor(date, id, j, head).original
  {
    PageUrlsDistinct(IllustHost + "/c/128x128/img-master/img", date, id, i, j, "_square1200.jpg", "_square1200.jpg");
    PageUrlsDistinct(IllustHost + "/c/540x540_70/img-master/img", date, id, i, j, "_master1200.jpg", "_master1200.jpg");
    PageUrlsDistinct(IllustHost + "/img-master/img", date, id, i, j, "_master1200.jpg", "_master1200.jpg");
    var ei := ProbedExtension(OriginalStem(date, id, i), head);
    var ej := ProbedExtension(OriginalStem(date, id, j), head);
    StemPlusExtension(IllustHost + "/img-original/img", date, id, i, ei);
    StemPlusExtension(IllustHost + "/img-original/img", date, id, j, ej);
    PageUrlsDistinct(IllustHost + "/img-original/img", date, id, i, j, "." + ei, "." + ej);
  }
}

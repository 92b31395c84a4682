/**
 The deterministic parts of the `search_anime_resources` assistant tool
 (`SearchAnimeTool`): the site-keyed search URL, the conversion of feed
 entries into search results, their split into downloaded and new, and the
 text report, which lists at most ten items per section.
 */
module SearchAnime {
  import opened Wrappers
  import opened Website
  import opened Seqs
  import opened UrlQuote

  // ----- search URL -----

  const MikanSearchPrefix: string := "https://mikanani.me/RSS/Search?searchstr="
  const DmhySearchPrefix: string := "https://dmhy.org/topics/rss/rss.xml?keyword="
  const AcgripSearchPrefix: string := "https://acg.rip/.xml?term="

  predicate IsSupportedWebsite(website: string) {
    website == "mikan" || website == "dmhy" || website == "acgrip"
  }

  /** The site table: each supported site's fixed URL prefix. */
  function SearchPrefix(website: string): Option<string>
  {
    if website == "mikan" then Some(MikanSearchPrefix)
    else if website == "dmhy" then Some(DmhySearchPrefix)
    else if website == "acgrip" then Some(AcgripSearchPrefix)
    else None
  }

  /** `_build_search_url`: the site's prefix followed by the quoted name, or None for an unknown site. */
  function BuildSearchUrl(animeName: string, website: string): (url: Option<string>)
    ensures url.Some? <==> IsSupportedWebsite(website)
    ensures website == "mikan" ==> url == Some(MikanSearchPrefix + QuotePlus(animeName))
    ensures website == "dmhy" ==> url == Some(DmhySearchPrefix + QuotePlus(animeName))
    ensures website == "acgrip" ==> url == Some(AcgripSearchPrefix + QuotePlus(animeName))
  {
    match SearchPrefix(website)
    case None => None
    case Some(prefix) => Some(prefix + QuotePlus(animeName))
  }

  /** The searched name is recovered from the URL, after the site's prefix. */
  lemma SearchTermRecoverable(animeName: string, website: string)
    requires IsSupportedWebsite(website)
    ensures var url, prefix := BuildSearchUrl(animeName, website).value, SearchPrefix(website).value;
      prefix <= url && UnquotePlus(url[|prefix|..]) == Some(animeName)
  {
    var url, prefix := BuildSearchUrl(animeName, website).value, SearchPrefix(website).value;
    assert url[|prefix|..] == QuotePlus(animeName);
    QuotePlusRoundTrip(animeName);
  }

  /** Different names give different URLs on the same site. */
  lemma SearchUrlInjective(name1: string, name2: string, website: string)
    requires IsSupportedWebsite(website)
    requires BuildSearchUrl(name1, website) == BuildSearchUrl(name2, website)
    ensures name1 == name2
  {
    SearchTermRecoverable(name1, website);
    SearchTermRecoverable(name2, website);
  }

  // ----- search results -----

  /** `SearchResult`, the assistant's view of one feed entry. */
  datatype SearchResult = SearchResult(
    title: string,
    downloadUrl: string,
    isDownloaded: bool,
    animeName: Option<string>,
    episode: Option<int>,
    quality: Option<string>)

  /** One entry as `_build_search_results` converts it; `isDownloaded` is the history lookup by title. */
  function ToSearchResult(e: ResourceInfo, isDownloaded: string -> bool): (r: SearchResult)
    ensures r.title == e.title && r.isDownloaded == isDownloaded(e.title)
    ensures r.downloadUrl == "" <==> !HasDownloadUrl(e)
    ensures HasDownloadUrl(e) ==> r.downloadUrl == e.downloadUrl.value
    ensures r.animeName == e.animeName && r.episode == e.episode && r.quality == e.quality
  {
    SearchResult(
      e.title,
      if HasDownloadUrl(e) then e.downloadUrl.value else "",
      isDownloaded(e.title),
      e.animeName,
      e.episode,
      e.quality)
  }

  /** `_build_search_results`: one result per entry, in order. */
  method BuildSearchResults(entries: seq<ResourceInfo>, isDownloaded: string -> bool)
    returns (results: seq<SearchResult>)
    ensures |results| == |entries|
    ensures forall k :: 0 <= k < |entries| ==> results[k] == ToSearchResult(entries[k], isDownloaded)
  {
    results := [];
    var i := 0;
    while i < |entries|
      invariant 0 <= i <= |entries|
      invariant |results| == i
      invariant forall k :: 0 <= k < i ==> results[k] == ToSearchResult(entries[k], isDownloaded)
    {
      var entry := entries[i];
      var downloaded := isDownloaded(entry.title);
      var url := if entry.downloadUrl.Some? && entry.downloadUrl.value != "" then entry.downloadUrl.value else "";
      results := results + [SearchResult(entry.title, url, downloaded, entry.animeName, entry.episode, entry.quality)];
      i := i + 1;
    }
  }

  // ----- split -----

  /** The results whose download flag is `want`, in order. */
  function Select(rs: seq<SearchResult>, want: bool): (s: seq<SearchResult>)
    ensures |s| <= |rs|
    ensures forall r :: r in s ==> r in rs && r.isDownloaded == want
  {
    if rs == [] then []
    else Select(rs[..|rs| - 1], want) + (if rs[|rs| - 1].isDownloaded == want then [rs[|rs| - 1]] else [])
  }

  /** Each result lands in exactly one of the two selections. */
  lemma {:induction false} SelectSizes(rs: seq<SearchResult>)
    ensures |Select(rs, true)| + |Select(rs, false)| == |rs|
  {
    if rs != [] {
      SelectSizes(rs[..|rs| - 1]);
    }
  }

  /** Together the two selections hold every result, as many times as `rs` does. */
  lemma {:induction false} SelectMultiset(rs: seq<SearchResult>)
    ensures multiset(Select(rs, true)) + multiset(Select(rs, false)) == multiset(rs)
  {
    if rs != [] {
      var rs', x := rs[..|rs| - 1], rs[|rs| - 1];
      SelectMultiset(rs');
      assert rs == rs' + [x];
      assert multiset(rs) == multiset(rs') + multiset{x};
      if x.isDownloaded {
        assert multiset(Select(rs, true)) == multiset(Select(rs', true)) + multiset{x};
      } else {
        assert multiset(Select(rs, false)) == multiset(Select(rs', false)) + multiset{x};
      }
    }
  }

  lemma {:induction false} SelectSubsequence(rs: seq<SearchResult>, want: bool)
    ensures IsSubsequence(Select(rs, want), rs)
  {
    if rs != [] {
      var rs', x := rs[..|rs| - 1], rs[|rs| - 1];
      SelectSubsequence(rs', want);
      assert rs == rs' + [x];
      var s := Select(rs', want);
      if x.isDownloaded == want {
        SubsequenceConcat(s, rs', [x], [x]);
      } else {
        assert Select(rs, want) == s + [];
        assert s + [] == s;
        SubsequenceExtend(s, rs', x);
      }
    }
  }

  /** A result is selected exactly when it is in the input and its flag is `want`. */
  lemma {:induction false} SelectComplete(rs: seq<SearchResult>, want: bool, r: SearchResult)
    ensures r in Select(rs, want) <==> r in rs && r.isDownloaded == want
    decreases |rs|
  {
    if rs != [] {
      var rs' := rs[..|rs| - 1];
      assert rs == rs' + [rs[|rs| - 1]];
      SelectComplete(rs', want, r);
    }
  }

  /**
   `_split_results`: a stable partition on the download flag. Every result
   lands in exactly the list its flag names, and each list keeps input order.
   */
  function SplitResults(results: seq<SearchResult>): (split: (seq<SearchResult>, seq<SearchResult>))
    ensures |split.0| + |split.1| == |results|
    ensures multiset(split.0) + multiset(split.1) == multiset(results)
    ensures IsSubsequence(split.0, results) && IsSubsequence(split.1, results)
    ensures forall r :: r in split.0 <==> r in results && r.isDownloaded
    ensures forall r :: r in split.1 <==> r in results && !r.isDownloaded
  {
    SelectSizes(results);
    SelectMultiset(results);
    SelectSubsequence(results, true);
    SelectSubsequence(results, false);
    forall r ensures r in Select(results, true) <==> r in results && r.isDownloaded {
      SelectComplete(results, true, r);
    }
    forall r ensures r in Select(results, false) <==> r in results && !r.isDownloaded {
      SelectComplete(results, false, r);
    }
    (Select(results, true), Select(results, false))
  }

  // ----- report lines -----

  /** The most items a section lists by number. */
  const MaxListed: nat := 10

  const SearchHeadingPrefix: string := "\U{1F50D} Search Results for '"
  const DownloadedHeadingPrefix: string := "\U{1F4E6} Already Downloaded ("
  const NewHeadingPrefix: string := "\U{1F195} New Resources ("
  const QualityPrefix: string := "     Quality: "
  const DownloadUrlPrefix: string := "     Download URL: "
  const MorePrefix: string := "  ...and "
  const DownloadedWarningText: string :=
    "\n\U{26A0}\U{FE0F} These resources are already downloaded, do NOT download them again!\n\n"
  const NoNewResourcesText: string := "\U{2139}\U{FE0F} No new resources found (all have been downloaded)\n"

  /** The report as a sequence of lines, each of one kind. */
  datatype Line =
    | Heading(animeName: string, website: string)
    | DownloadedHeading(count: nat)
    | NewHeading(count: nat)
    | Item(index: nat, title: string)
    | QualityLine(quality: string)
    | DownloadUrlLine(url: string)
    | More(count: nat)
    | DownloadedWarning
    | NoNewResources

  function Digit(d: nat): char
    requires d < 10
  {
    ('0' as int + d) as char
  }

  /** Decimal text of a natural number, as an f-string prints it. */
  function NatToString(n: nat): string
  {
    if n < 10 then [Digit(n)] else NatToString(n / 10) + [Digit(n % 10)]
  }

  function RenderLine(l: Line): string
  {
    match l
    case Heading(name, site) => SearchHeadingPrefix + name + "' on " + site + ":\n\n"
    case DownloadedHeading(n) => DownloadedHeadingPrefix + NatToString(n) + " resources):\n"
    case NewHeading(n) => NewHeadingPrefix + NatToString(n) + " available):\n"
    case Item(i, title) => "  " + NatToString(i) + ". " + title + "\n"
    case QualityLine(q) => QualityPrefix + q + "\n"
    case DownloadUrlLine(u) => DownloadUrlPrefix + u + "\n\n"
    case More(n) => MorePrefix + NatToString(n) + " more\n"
    case DownloadedWarning => DownloadedWarningText
    case NoNewResources => NoNewResourcesText
  }

  function Render(lines: seq<Line>): string
  {
    if lines == [] then "" else Render(lines[..|lines| - 1]) + RenderLine(lines[|lines| - 1])
  }

  lemma AppendAssoc(a: string, b: string, c: string)
    ensures (a + b) + c == a + (b + c)
  {
  }

  lemma RenderSnoc(s: seq<Line>, l: Line)
    ensures Render(s + [l]) == Render(s) + RenderLine(l)
  {
    assert (s + [l])[..|s|] == s;
  }

  lemma {:induction false} RenderConcat(a: seq<Line>, b: seq<Line>)
    ensures Render(a + b) == Render(a) + Render(b)
    decreases |b|
  {
    if b == [] {
      assert a + b == a;
    } else {
      var b', last := b[..|b| - 1], b[|b| - 1];
      assert b == b' + [last];
      assert a + b == (a + b') + [last];
      RenderSnoc(a + b', last);
      RenderSnoc(b', last);
      RenderConcat(a, b');
      AppendAssoc(Render(a), Render(b'), RenderLine(last));
    }
  }

  predicate HasQuality(r: SearchResult) {
    r.quality.Some? && r.quality.value != ""
  }

  /** The lines of one listed result: its numbered title, its quality when set, and for new resources the URL. */
  function ItemBlock(index: nat, r: SearchResult, withUrl: bool): seq<Line>
  {
    [Item(index, r.title)]
    + (if HasQuality(r) then [QualityLine(r.quality.value)] else [])
    + (if withUrl then [DownloadUrlLine(r.downloadUrl)] else [])
  }

  /** The blocks of `rs`, numbered from 1. */
  function ItemBlocks(rs: seq<SearchResult>, withUrl: bool): seq<Line>
  {
    if rs == [] then []
    else ItemBlocks(rs[..|rs| - 1], withUrl) + ItemBlock(|rs|, rs[|rs| - 1], withUrl)
  }

  /** `rs[:10]`. */
  function Listed(rs: seq<SearchResult>): (s: seq<SearchResult>)
    ensures |s| == if |rs| < MaxListed then |rs| else MaxListed
  {
    if |rs| < MaxListed then rs else rs[..MaxListed]
  }

  function MoreLines(n: nat): seq<Line>
  {
    if n > MaxListed then [More(n - MaxListed)] else []
  }

  function DownloadedSection(downloaded: seq<SearchResult>): seq<Line>
  {
    [DownloadedHeading(|downloaded|)] + ItemBlocks(Listed(downloaded), false)
    + MoreLines(|downloaded|) + [DownloadedWarning]
  }

  function NewSection(newResources: seq<SearchResult>): seq<Line>
  {
    [NewHeading(|newResources|)] + ItemBlocks(Listed(newResources), true) + MoreLines(|newResources|)
  }

  /** The downloaded section, when some result is downloaded. */
  function DownloadedPart(downloaded: seq<SearchResult>): seq<Line>
  {
    if downloaded != [] then DownloadedSection(downloaded) else []
  }

  /** The new section, or the "no new resources" line when no result is new. */
  function NewPart(newResources: seq<SearchResult>): seq<Line>
  {
    if newResources != [] then NewSection(newResources) else [NoNewResources]
  }

  /** The report on the downloaded and the new results of a search. */
  function Report(animeName: string, website: string, downloaded: seq<SearchResult>, newResources: seq<SearchResult>): seq<Line>
  {
    [Heading(animeName, website)] + DownloadedPart(downloaded) + NewPart(newResources)
  }

  function ReportLines(animeName: string, website: string, results: seq<SearchResult>): seq<Line>
  {
    var split := SplitResults(results);
    Report(animeName, website, split.0, split.1)
  }

  // ----- the formatting methods -----

  lemma RenderOne(l: Line)
    ensures Render([l]) == RenderLine(l)
  {
    assert [l][..0] == [];
  }

  /** The text one enumerate step appends for a listed result. */
  function ItemText(index: nat, r: SearchResult, withUrl: bool): string
  {
    RenderLine(Item(index, r.title))
    + (if HasQuality(r) then RenderLine(QualityLine(r.quality.value)) else "")
    + (if withUrl then RenderLine(DownloadUrlLine(r.downloadUrl)) else "")
  }

  lemma RenderItemBlock(index: nat, r: SearchResult, withUrl: bool)
    ensures Render(ItemBlock(index, r, withUrl)) == ItemText(index, r, withUrl)
  {
    var a := [Item(index, r.title)];
    var b := if HasQuality(r) then [QualityLine(r.quality.value)] else [];
    var c := if withUrl then [DownloadUrlLine(r.downloadUrl)] else [];
    RenderConcat(a + b, c);
    RenderConcat(a, b);
    RenderOne(Item(index, r.title));
    if HasQuality(r) {
      RenderOne(QualityLine(r.quality.value));
    }
    if withUrl {
      RenderOne(DownloadUrlLine(r.downloadUrl));
    }
  }

  /** `m` followed by the quality line of `r`, when its quality is set. */
  function WithQuality(m: string, r: SearchResult): string
  {
    if HasQuality(r) then m + RenderLine(QualityLine(r.quality.value)) else m
  }

  /** `m` followed by the download URL line of `r`, for the new-resources section. */
  function WithUrl(m: string, r: SearchResult, withUrl: bool): string
  {
    if withUrl then m + RenderLine(DownloadUrlLine(r.downloadUrl)) else m
  }

  /** `m` followed by the "...and N more" line, when there are more than ten results. */
  function WithMore(m: string, n: nat): string
  {
    if n > MaxListed then m + RenderLine(More(n - MaxListed)) else m
  }

  /** One step of the enumerate loops: the next listed result's lines are appended. */
  lemma ItemBlocksSnoc(listed: seq<SearchResult>, idx: nat, withUrl: bool)
    requires idx < |listed|
    ensures ItemBlocks(listed[..idx + 1], withUrl) == ItemBlocks(listed[..idx], withUrl) + ItemBlock(idx + 1, listed[idx], withUrl)
  {
    assert listed[..idx + 1][..idx] == listed[..idx];
  }

  lemma RenderBlockAfter(prefix: seq<Line>, index: nat, r: SearchResult, withUrl: bool)
    ensures Render(prefix + ItemBlock(index, r, withUrl)) ==
      WithUrl(WithQuality(Render(prefix) + RenderLine(Item(index, r.title)), r), r, withUrl)
  {
    RenderConcat(prefix, ItemBlock(index, r, withUrl));
    RenderItemBlock(index, r, withUrl);
    var m, i := Render(prefix), RenderLine(Item(index, r.title));
    var q := if HasQuality(r) then RenderLine(QualityLine(r.quality.value)) else "";
    var u := if withUrl then RenderLine(DownloadUrlLine(r.downloadUrl)) else "";
    AppendAssoc(m, i, q);
    AppendAssoc(m, i + q, u);
    assert m + i + "" == m + i;
    assert m + i + q + "" == m + i + q;
  }

  lemma AppendBlock(head: seq<Line>, listed: seq<SearchResult>, idx: nat, withUrl: bool)
    requires idx < |listed|
    ensures Render(head + ItemBlocks(listed[..idx + 1], withUrl)) ==
      WithUrl(WithQuality(Render(head + ItemBlocks(listed[..idx], withUrl)) + RenderLine(Item(idx + 1, listed[idx].title)),
                          listed[idx]), listed[idx], withUrl)
  {
    var blocks := ItemBlocks(listed[..idx], withUrl);
    var block := ItemBlock(idx + 1, listed[idx], withUrl);
    ItemBlocksSnoc(listed, idx, withUrl);
    assert head + (blocks + block) == (head + blocks) + block;
    RenderBlockAfter(head + blocks, idx + 1, listed[idx], withUrl);
  }

  /** The end of a section: the "...and N more" line when there are more than ten results. */
  lemma RenderSectionEnd(body: seq<Line>, n: nat)
    ensures Render(body + MoreLines(n)) == WithMore(Render(body), n)
  {
    RenderConcat(body, MoreLines(n));
    if n > MaxListed {
      RenderOne(More(n - MaxListed));
    } else {
      assert body + [] == body;
    }
  }

  lemma WithMoreText(m: string, n: nat)
    ensures WithMore(m, n) ==
      if n > MaxListed then m + (MorePrefix + NatToString(n - MaxListed) + " more\n") else m
  {
  }

  /** The end of a section as text: `m`, the text of `body`, then the "...and N more" line when needed. */
  lemma MoreLinesText(body: seq<Line>, n: nat, m: string)
    requires m == Render(body)
    ensures Render(body + MoreLines(n)) ==
      if n > MaxListed then m + (MorePrefix + NatToString(n - MaxListed) + " more\n") else m
  {
    RenderSectionEnd(body, n);
    WithMoreText(m, n);
  }

  /** The downloaded section ends with its warning. */
  lemma WarningText(body: seq<Line>)
    ensures Render(body + [DownloadedWarning]) == Render(body) + DownloadedWarningText
  {
    RenderConcat(body, [DownloadedWarning]);
    RenderOne(DownloadedWarning);
  }

  /** `_format_downloaded_resources`. */
  method FormatDownloadedResources(downloaded: seq<SearchResult>) returns (message: string)
    ensures message == Render(DownloadedSection(downloaded))
  {
    var count := |downloaded|;
    var head := [DownloadedHeading(count)];
    message := DownloadedHeadingPrefix + NatToString(count) + " resources):\n";
    assert head + ItemBlocks([], false) == head;
    RenderOne(head[0]);
    var listed := Listed(downloaded);
    var idx := 0;
    while idx < |listed|
      invariant 0 <= idx <= |listed|
      invariant message == Render(head + ItemBlocks(listed[..idx], false))
    {
      var resource := listed[idx];
      AppendBlock(head, listed, idx, false);
      message := message + ("  " + NatToString(idx + 1) + ". " + resource.title + "\n");
      if resource.quality.Some? && resource.quality.value != "" {
        message := message + (QualityPrefix + resource.quality.value + "\n");
      }
      idx := idx + 1;
    }
    assert listed[..idx] == listed;
    MoreLinesText(head + ItemBlocks(listed, false), count, message);
    WarningText(head + ItemBlocks(listed, false) + MoreLines(count));
    if count > MaxListed {
      message := message + (MorePrefix + NatToString(count - MaxListed) + " more\n");
    }
    message := message + DownloadedWarningText;
  }

  /** `_format_new_resources`. */
  method FormatNewResources(newResources: seq<SearchResult>) returns (message: string)
    ensures message == Render(NewSection(newResources))
  {
    var count := |newResources|;
    var head := [NewHeading(count)];
    message := NewHeadingPrefix + NatToString(count) + " available):\n";
    assert head + ItemBlocks([], true) == head;
    RenderOne(head[0]);
    var listed := Listed(newResources);
    var idx := 0;
    while idx < |listed|
      invariant 0 <= idx <= |listed|
      invariant message == Render(head + ItemBlocks(listed[..idx], true))
    {
      var resource := listed[idx];
      AppendBlock(head, listed, idx, true);
      message := message + ("  " + NatToString(idx + 1) + ". " + resource.title + "\n");
      if resource.quality.Some? && resource.quality.value != "" {
        message := message + (QualityPrefix + resource.quality.value + "\n");
      }
      message := message + (DownloadUrlPrefix + resource.downloadUrl + "\n\n");
      idx := idx + 1;
    }
    assert listed[..idx] == listed;
    MoreLinesText(head + ItemBlocks(listed, true), count, message);
    if count > MaxListed {
      message := message + (MorePrefix + NatToString(count - MaxListed) + " more\n");
    }
  }

  /** `m` followed by the downloaded section, when some result is downloaded. */
  function WithDownloaded(m: string, downloaded: seq<SearchResult>): string
  {
    if downloaded != [] then m + Render(DownloadedSection(downloaded)) else m
  }

  /** `m` followed by the new section, or by the "no new resources" line when there is none. */
  function WithNew(m: string, newResources: seq<SearchResult>): string
  {
    if newResources != [] then m + Render(NewSection(newResources)) else m + NoNewResourcesText
  }

  lemma RenderReport(animeName: string, website: string, downloaded: seq<SearchResult>, newResources: seq<SearchResult>)
    ensures Render(Report(animeName, website, downloaded, newResources)) ==
      WithNew(WithDownloaded(RenderLine(Heading(animeName, website)), downloaded), newResources)
  {
    var heading := [Heading(animeName, website)];
    var first, second := DownloadedPart(downloaded), NewPart(newResources);
    RenderConcat(heading + first, second);
    RenderConcat(heading, first);
    RenderOne(heading[0]);
    if newResources == [] {
      RenderOne(NoNewResources);
    }
    if downloaded == [] {
      assert heading + first == heading;
      assert Render(heading) + "" == Render(heading);
    }
  }

  /** `_format_search_results`. */
  method FormatSearchResults(animeName: string, website: string, results: seq<SearchResult>)
    returns (msg: string)
    ensures msg == Render(ReportLines(animeName, website, results))
  {
    var split := SplitResults(results);
    var downloaded, newResources := split.0, split.1;
    msg := SearchHeadingPrefix + animeName + "' on " + website + ":\n\n";
    if downloaded != [] {
      var section := FormatDownloadedResources(downloaded);
      msg := msg + section;
    }
    if newResources != [] {
      var section := FormatNewResources(newResources);
      msg := msg + section;
    } else {
      msg := msg + NoNewResourcesText;
    }
    RenderReport(animeName, website, downloaded, newResources);
  }

  // ----- what the report shows -----

  /** The kind of a line, to pick lines of one kind out of a report. */
  datatype LineKind = HeadingKind | DownloadedHeadingKind | NewHeadingKind | ItemKind | QualityKind
                    | UrlKind | MoreKind | WarningKind | NoNewKind

  function KindOf(l: Line): LineKind
  {
    match l
    case Heading(_, _) => HeadingKind
    case DownloadedHeading(_) => DownloadedHeadingKind
    case NewHeading(_) => NewHeadingKind
    case Item(_, _) => ItemKind
    case QualityLine(_) => QualityKind
    case DownloadUrlLine(_) => UrlKind
    case More(_) => MoreKind
    case DownloadedWarning => WarningKind
    case NoNewResources => NoNewKind
  }

  /** The lines of kind `k`, in order. */
  function OfKind(lines: seq<Line>, k: LineKind): seq<Line>
  {
    if lines == [] then []
    else OfKind(lines[..|lines| - 1], k) + (if KindOf(lines[|lines| - 1]) == k then [lines[|lines| - 1]] else [])
  }

  lemma {:induction false} OfKindConcat(a: seq<Line>, b: seq<Line>, k: LineKind)
    ensures OfKind(a + b, k) == OfKind(a, k) + OfKind(b, k)
    decreases |b|
  {
    if b == [] {
      assert a + b == a;
    } else {
      var b' := b[..|b| - 1];
      assert (a + b)[..|a + b| - 1] == a + b';
      OfKindConcat(a, b', k);
    }
  }

  lemma OfKindOne(l: Line, k: LineKind)
    ensures OfKind([l], k) == if KindOf(l) == k then [l] else []
  {
    assert [l][..0] == [];
  }

  /** The numbered item lines of `rs`: item i + 1 carries the title of rs[i]. */
  function Numbered(rs: seq<SearchResult>): seq<Line>
  {
    seq(|rs|, i requires 0 <= i < |rs| => Item(i + 1, rs[i].title))
  }

  /** The quality lines of `rs`: one for each result whose quality is set and non-empty. */
  function QualitiesOf(rs: seq<SearchResult>): seq<Line>
  {
    if rs == [] then []
    else
      var last := rs[|rs| - 1];
      QualitiesOf(rs[..|rs| - 1]) + (if HasQuality(last) then [QualityLine(last.quality.value)] else [])
  }

  /** The download URL lines of `rs`, one per result. */
  function UrlsOf(rs: seq<SearchResult>): seq<Line>
  {
    seq(|rs|, i requires 0 <= i < |rs| => DownloadUrlLine(rs[i].downloadUrl))
  }

  /** The lines of kind `k` in the lines of `rs`. */
  function BlocksOfKind(rs: seq<SearchResult>, withUrl: bool, k: LineKind): seq<Line>
  {
    if k == ItemKind then Numbered(rs)
    else if k == QualityKind then QualitiesOf(rs)
    else if k == UrlKind && withUrl then UrlsOf(rs)
    else []
  }

  /** The lines of kind `k` in the block of one listed result. */
  function BlockKinds(index: nat, r: SearchResult, withUrl: bool, k: LineKind): seq<Line>
  {
    (if k == ItemKind then [Item(index, r.title)] else [])
    + (if k == QualityKind && HasQuality(r) then [QualityLine(r.quality.value)] else [])
    + (if k == UrlKind && withUrl then [DownloadUrlLine(r.downloadUrl)] else [])
  }

  /** A block's lines of kind `k`, line by line. */
  lemma ItemBlockPieces(index: nat, r: SearchResult, withUrl: bool, k: LineKind)
    ensures OfKind(ItemBlock(index, r, withUrl), k) ==
      OfKind([Item(index, r.title)], k)
      + OfKind(if HasQuality(r) then [QualityLine(r.quality.value)] else [], k)
      + OfKind(if withUrl then [DownloadUrlLine(r.downloadUrl)] else [], k)
  {
    var a: seq<Line> := [Item(index, r.title)];
    var b: seq<Line> := if HasQuality(r) then [QualityLine(r.quality.value)] else [];
    var c: seq<Line> := if withUrl then [DownloadUrlLine(r.downloadUrl)] else [];
    OfKindConcat(a + b, c, k);
    OfKindConcat(a, b, k);
  }

  lemma ItemLineKind(index: nat, title: string, k: LineKind)
    ensures OfKind([Item(index, title)], k) == if k == ItemKind then [Item(index, title)] else []
  {
    OfKindOne(Item(index, title), k);
  }

  lemma QualityLineKind(r: SearchResult, k: LineKind)
    ensures OfKind(if HasQuality(r) then [QualityLine(r.quality.value)] else [], k)
      == if k == QualityKind && HasQuality(r) then [QualityLine(r.quality.value)] else []
  {
    if HasQuality(r) { OfKindOne(QualityLine(r.quality.value), k); }
  }

  lemma UrlLineKind(r: SearchResult, withUrl: bool, k: LineKind)
    ensures OfKind(if withUrl then [DownloadUrlLine(r.downloadUrl)] else [], k)
      == if k == UrlKind && withUrl then [DownloadUrlLine(r.downloadUrl)] else []
  {
    if withUrl { OfKindOne(DownloadUrlLine(r.downloadUrl), k); }
  }

  lemma ItemBlockKinds(index: nat, r: SearchResult, withUrl: bool, k: LineKind)
    ensures OfKind(ItemBlock(index, r, withUrl), k) == BlockKinds(index, r, withUrl, k)
  {
    ItemBlockPieces(index, r, withUrl, k);
    ItemLineKind(index, r.title, k);
    QualityLineKind(r, k);
    UrlLineKind(r, withUrl, k);
  }

  /** The kind-`k` lines of the listed results grow by those of the last block. */
  lemma BlocksOfKindStep(rs: seq<SearchResult>, withUrl: bool, k: LineKind)
    requires rs != []
    ensures BlocksOfKind(rs, withUrl, k) ==
      BlocksOfKind(rs[..|rs| - 1], withUrl, k) + BlockKinds(|rs|, rs[|rs| - 1], withUrl, k)
  {
    var rs', last := rs[..|rs| - 1], rs[|rs| - 1];
    var e: seq<Line> := [];
    if k == ItemKind {
      assert Numbered(rs) == Numbered(rs') + [Item(|rs|, last.title)];
      assert BlockKinds(|rs|, last, withUrl, k) == [Item(|rs|, last.title)] + e + e;
    } else if k == QualityKind {
      var q: seq<Line> := if HasQuality(last) then [QualityLine(last.quality.value)] else [];
      assert BlockKinds(|rs|, last, withUrl, k) == e + q + e;
    } else if k == UrlKind && withUrl {
      assert UrlsOf(rs) == UrlsOf(rs') + [DownloadUrlLine(last.downloadUrl)];
      assert BlockKinds(|rs|, last, withUrl, k) == e + e + [DownloadUrlLine(last.downloadUrl)];
    } else {
      assert BlockKinds(|rs|, last, withUrl, k) == e + e + e;
    }
  }

  /** Which lines the listed blocks hold, kind by kind. */
  lemma {:induction false} ItemBlocksKinds(rs: seq<SearchResult>, withUrl: bool, k: LineKind)
    ensures OfKind(ItemBlocks(rs, withUrl), k) == BlocksOfKind(rs, withUrl, k)
    decreases |rs|
  {
    if rs != [] {
      var rs', last := rs[..|rs| - 1], rs[|rs| - 1];
      ItemBlocksKinds(rs', withUrl, k);
      OfKindConcat(ItemBlocks(rs', withUrl), ItemBlock(|rs|, last, withUrl), k);
      ItemBlockKinds(|rs|, last, withUrl, k);
      BlocksOfKindStep(rs, withUrl, k);
    }
  }

  /** The lines of kind `k` in the downloaded section, part by part. */
  lemma DownloadedSectionOfKind(rs: seq<SearchResult>, k: LineKind)
    ensures OfKind(DownloadedSection(rs), k) ==
      OfKind([DownloadedHeading(|rs|)], k) + BlocksOfKind(Listed(rs), false, k)
      + OfKind(MoreLines(|rs|), k) + OfKind([DownloadedWarning], k)
  {
    var head, blocks, more, tail := [DownloadedHeading(|rs|)], ItemBlocks(Listed(rs), false), MoreLines(|rs|), [DownloadedWarning];
    assert DownloadedSection(rs) == head + blocks + more + tail;
    OfKindConcat(head + blocks + more, tail, k);
    OfKindConcat(head + blocks, more, k);
    OfKindConcat(head, blocks, k);
    ItemBlocksKinds(Listed(rs), false, k);
  }

  /** The lines of kind `k` in the new-resources section, part by part. */
  lemma NewSectionOfKind(rs: seq<SearchResult>, k: LineKind)
    ensures OfKind(NewSection(rs), k) ==
      OfKind([NewHeading(|rs|)], k) + BlocksOfKind(Listed(rs), true, k) + OfKind(MoreLines(|rs|), k)
  {
    var head, blocks, more := [NewHeading(|rs|)], ItemBlocks(Listed(rs), true), MoreLines(|rs|);
    assert NewSection(rs) == head + blocks + more;
    OfKindConcat(head + blocks, more, k);
    OfKindConcat(head, blocks, k);
    ItemBlocksKinds(Listed(rs), true, k);
  }

  lemma MoreLinesOfKind(n: nat, k: LineKind)
    ensures OfKind(MoreLines(n), k) == if k == MoreKind then MoreLines(n) else []
  {
    if n > MaxListed {
      OfKindOne(More(n - MaxListed), k);
    }
  }

  /** A line that is alone of its kind `kind` among the lines picked out by kind `k`. */
  lemma LineOfKind(l: Line, kind: LineKind, k: LineKind)
    requires KindOf(l) == kind
    ensures OfKind([l], k) == if k == kind then [l] else []
  {
    OfKindOne(l, k);
  }

  /** The lines of kind `k` in the downloaded section: its heading, its blocks, "...and N more", its warning. */
  lemma DownloadedSectionKinds(rs: seq<SearchResult>, k: LineKind)
    ensures OfKind(DownloadedSection(rs), k) ==
      (if k == DownloadedHeadingKind then [DownloadedHeading(|rs|)] else [])
      + BlocksOfKind(Listed(rs), false, k)
      + (if k == MoreKind then MoreLines(|rs|) else [])
      + (if k == WarningKind then [DownloadedWarning] else [])
  {
    DownloadedSectionOfKind(rs, k);
    LineOfKind(DownloadedHeading(|rs|), DownloadedHeadingKind, k);
    MoreLinesOfKind(|rs|, k);
    LineOfKind(DownloadedWarning, WarningKind, k);
  }

  /** The lines of kind `k` in the new-resources section: its heading, its blocks, "...and N more". */
  lemma NewSectionKinds(rs: seq<SearchResult>, k: LineKind)
    ensures OfKind(NewSection(rs), k) ==
      (if k == NewHeadingKind then [NewHeading(|rs|)] else [])
      + BlocksOfKind(Listed(rs), true, k)
      + (if k == MoreKind then MoreLines(|rs|) else [])
  {
    NewSectionOfKind(rs, k);
    LineOfKind(NewHeading(|rs|), NewHeadingKind, k);
    MoreLinesOfKind(|rs|, k);
  }

  /** The downloaded part of a report holds the downloaded heading, with its count, exactly when some result is downloaded. */
  lemma DownloadedPartHeading(downloaded: seq<SearchResult>)
    ensures OfKind(DownloadedPart(downloaded), DownloadedHeadingKind) ==
      if downloaded != [] then [DownloadedHeading(|downloaded|)] else []
  {
    if downloaded != [] {
      var h: seq<Line> := [DownloadedHeading(|downloaded|)];
      DownloadedSectionKinds(downloaded, DownloadedHeadingKind);
      assert h + [] + [] + [] == h;
    }
  }

  /** The downloaded part holds neither the new heading nor the "no new resources" line. */
  lemma DownloadedPartOthers(downloaded: seq<SearchResult>, k: LineKind)
    requires k == NewHeadingKind || k == NoNewKind
    ensures OfKind(DownloadedPart(downloaded), k) == []
  {
    if downloaded != [] {
      DownloadedSectionKinds(downloaded, k);
    }
  }

  /** The new part of a report holds the new heading, with its count, exactly when some result is new. */
  lemma NewPartHeading(newResources: seq<SearchResult>)
    ensures OfKind(NewPart(newResources), NewHeadingKind) ==
      if newResources != [] then [NewHeading(|newResources|)] else []
  {
    if newResources != [] {
      var g: seq<Line> := [NewHeading(|newResources|)];
      NewSectionKinds(newResources, NewHeadingKind);
      assert g + [] + [] == g;
    } else {
      LineOfKind(NoNewResources, NoNewKind, NewHeadingKind);
    }
  }

  /** The new part holds the "no new resources" line exactly when no result is new. */
  lemma NewPartNoNew(newResources: seq<SearchResult>)
    ensures OfKind(NewPart(newResources), NoNewKind) == if newResources == [] then [NoNewResources] else []
  {
    if newResources != [] {
      var e: seq<Line> := [];
      NewSectionOfKind(newResources, NoNewKind);
      LineOfKind(NewHeading(|newResources|), NewHeadingKind, NoNewKind);
      MoreLinesOfKind(|newResources|, NoNewKind);
      assert BlocksOfKind(Listed(newResources), true, NoNewKind) == [];
      assert e + e + e == e;
    } else {
      LineOfKind(NoNewResources, NoNewKind, NoNewKind);
    }
  }

  /** The new part never holds the downloaded heading. */
  lemma NewPartNoDownloadedHeading(newResources: seq<SearchResult>)
    ensures OfKind(NewPart(newResources), DownloadedHeadingKind) == []
  {
    if newResources != [] {
      NewSectionKinds(newResources, DownloadedHeadingKind);
    } else {
      LineOfKind(NoNewResources, NoNewKind, DownloadedHeadingKind);
    }
  }

  /**
   A section numbers its first min(n, 10) results from 1 with their titles:
   never more than ten items, numbered 1 to min(n, 10).
   */
  lemma SectionItems(rs: seq<SearchResult>)
    ensures OfKind(DownloadedSection(rs), ItemKind) == Numbered(Listed(rs))
    ensures OfKind(NewSection(rs), ItemKind) == Numbered(Listed(rs))
    ensures |Numbered(Listed(rs))| == if |rs| < MaxListed then |rs| else MaxListed
    ensures forall i :: 0 <= i < |Numbered(Listed(rs))| ==> Numbered(Listed(rs))[i] == Item(i + 1, rs[i].title)
  {
    var items := Numbered(Listed(rs));
    DownloadedSectionKinds(rs, ItemKind);
    assert [] + items + [] + [] == items;
    NewSectionKinds(rs, ItemKind);
    assert [] + items + [] == items;
  }

  /** A quality line is shown for exactly the listed results whose quality is non-empty. */
  lemma SectionQualities(rs: seq<SearchResult>)
    ensures OfKind(DownloadedSection(rs), QualityKind) == QualitiesOf(Listed(rs))
    ensures OfKind(NewSection(rs), QualityKind) == QualitiesOf(Listed(rs))
  {
    var qs := QualitiesOf(Listed(rs));
    DownloadedSectionKinds(rs, QualityKind);
    assert [] + qs + [] + [] == qs;
    NewSectionKinds(rs, QualityKind);
    assert [] + qs + [] == qs;
  }

  /** The new section gives each listed result's download URL; the downloaded section gives none. */
  lemma SectionUrls(rs: seq<SearchResult>)
    ensures OfKind(NewSection(rs), UrlKind) == UrlsOf(Listed(rs))
    ensures OfKind(DownloadedSection(rs), UrlKind) == []
  {
    var us := UrlsOf(Listed(rs));
    NewSectionKinds(rs, UrlKind);
    assert [] + us + [] == us;
    DownloadedSectionKinds(rs, UrlKind);
  }

  /** "...and N more" appears once exactly when there are more than ten results, with N = n - 10. */
  lemma SectionMore(rs: seq<SearchResult>)
    ensures OfKind(DownloadedSection(rs), MoreKind) == MoreLines(|rs|)
    ensures OfKind(NewSection(rs), MoreKind) == MoreLines(|rs|)
    ensures MoreLines(|rs|) == if |rs| > MaxListed then [More(|rs| - MaxListed)] else []
  {
    DownloadedSectionMore(rs);
    NewSectionMore(rs);
  }

  lemma DownloadedSectionMore(rs: seq<SearchResult>)
    ensures OfKind(DownloadedSection(rs), MoreKind) == MoreLines(|rs|)
  {
    var more := MoreLines(|rs|);
    DownloadedSectionKinds(rs, MoreKind);
    assert [] + [] + more + [] == more;
  }

  lemma NewSectionMore(rs: seq<SearchResult>)
    ensures OfKind(NewSection(rs), MoreKind) == MoreLines(|rs|)
  {
    var more := MoreLines(|rs|);
    NewSectionOfKind(rs, MoreKind);
    LineOfKind(NewHeading(|rs|), NewHeadingKind, MoreKind);
    MoreLinesOfKind(|rs|, MoreKind);
    assert BlocksOfKind(Listed(rs), true, MoreKind) == [];
    assert [] + [] + more == more;
  }

  /** The lines of kind `k` in a report, part by part. */
  lemma ReportOfKind(animeName: string, website: string, downloaded: seq<SearchResult>, newResources: seq<SearchResult>, k: LineKind)
    ensures OfKind(Report(animeName, website, downloaded, newResources), k) ==
      OfKind([Heading(animeName, website)], k) + OfKind(DownloadedPart(downloaded), k) + OfKind(NewPart(newResources), k)
  {
    var heading := [Heading(animeName, website)];
    OfKindConcat(heading + DownloadedPart(downloaded), NewPart(newResources), k);
    OfKindConcat(heading, DownloadedPart(downloaded), k);
  }

  /** The downloaded section's heading appears, with its count, exactly when some result is downloaded. */
  lemma ReportDownloadedHeading(animeName: string, website: string, downloaded: seq<SearchResult>, newResources: seq<SearchResult>)
    ensures OfKind(Report(animeName, website, downloaded, newResources), DownloadedHeadingKind) ==
      if downloaded != [] then [DownloadedHeading(|downloaded|)] else []
  {
    var k := DownloadedHeadingKind;
    ReportOfKind(animeName, website, downloaded, newResources, k);
    LineOfKind(Heading(animeName, website), HeadingKind, k);
    DownloadedPartHeading(downloaded);
    NewPartNoDownloadedHeading(newResources);
    var h, d, n := OfKind([Heading(animeName, website)], k), OfKind(DownloadedPart(downloaded), k), OfKind(NewPart(newResources), k);
    assert h == [] && n == [];
    assert h + d + n == d;
  }

  /** The new section's heading appears, with its count, exactly when some result is new. */
  lemma ReportNewHeading(animeName: string, website: string, downloaded: seq<SearchResult>, newResources: seq<SearchResult>)
    ensures OfKind(Report(animeName, website, downloaded, newResources), NewHeadingKind) ==
      if newResources != [] then [NewHeading(|newResources|)] else []
  {
    var k := NewHeadingKind;
    ReportOfKind(animeName, website, downloaded, newResources, k);
    LineOfKind(Heading(animeName, website), HeadingKind, k);
    DownloadedPartOthers(downloaded, k);
    NewPartHeading(newResources);
    var last := OfKind(NewPart(newResources), k);
    assert [] + [] + last == last;
  }

  /** The "no new resources" line appears exactly when no result is new. */
  lemma ReportNoNew(animeName: string, website: string, downloaded: seq<SearchResult>, newResources: seq<SearchResult>)
    ensures OfKind(Report(animeName, website, downloaded, newResources), NoNewKind) ==
      if newResources == [] then [NoNewResources] else []
  {
    var k := NoNewKind;
    ReportOfKind(animeName, website, downloaded, newResources, k);
    LineOfKind(Heading(animeName, website), HeadingKind, k);
    DownloadedPartOthers(downloaded, k);
    NewPartNoNew(newResources);
    var last := OfKind(NewPart(newResources), k);
    assert [] + [] + last == last;
  }

  // ----- the tool -----

  /** The search results of a list of entries, one per entry. */
  function SearchResultsOf(entries: seq<ResourceInfo>, isDownloaded: string -> bool): (rs: seq<SearchResult>)
    ensures |rs| == |entries|
  {
    seq(|entries|, k requires 0 <= k < |entries| => ToSearchResult(entries[k], isDownloaded))
  }

  /** What the website handler's fetch gives: no handler, the entries, or an exception. */
  datatype SearchFetch = NoHandlerFor | Fetched(entries: seq<ResourceInfo>) | FetchRaised

  const ErrorMark: string := "\U{274C} "

  function UnsupportedReply(website: string): string { ErrorMark + "Unsupported website: " + website }
  function NoHandlerReply(website: string): string { ErrorMark + "Failed to create handler for " + website }
  function SearchErrorReply(animeName: string, website: string): string
  { ErrorMark + "Error searching " + animeName + " on " + website }
  function NotFoundReply(animeName: string, website: string): string
  { ErrorMark + "No resources found for " + animeName + " on " + website }

  /**
   `execute`. `fetch` stands for the website handler's feed fetch of the
   search URL; `requested` is the URL that was fetched, None when nothing was.
   */
  method Execute(animeName: string, website: string, fetch: string -> SearchFetch, isDownloaded: string -> bool)
    returns (reply: string, requested: Option<string>)
    ensures requested == BuildSearchUrl(animeName, website)
    ensures !IsSupportedWebsite(website) ==> reply == UnsupportedReply(website)
    ensures requested.Some? && fetch(requested.value).NoHandlerFor? ==> reply == NoHandlerReply(website)
    ensures requested.Some? && fetch(requested.value).FetchRaised? ==> reply == SearchErrorReply(animeName, website)
    ensures requested.Some? && fetch(requested.value) == Fetched([]) ==> reply == NotFoundReply(animeName, website)
    ensures requested.Some? && fetch(requested.value).Fetched? && fetch(requested.value).entries != [] ==>
      reply == Render(ReportLines(animeName, website, SearchResultsOf(fetch(requested.value).entries, isDownloaded)))
  {
    requested := BuildSearchUrl(animeName, website);
    if requested.None? {
      return UnsupportedReply(website), requested;
    }
    var outcome := fetch(requested.value);
    if outcome.NoHandlerFor? {
      return NoHandlerReply(website), requested;
    }
    if outcome.FetchRaised? {
      return SearchErrorReply(animeName, website), requested;
    }
    var entries := outcome.entries;
    var results := BuildSearchResults(entries, isDownloaded);
    if results == [] {
      return NotFoundReply(animeName, website), requested;
    }
    assert results == SearchResultsOf(entries, isDownloaded);
    reply := FormatSearchResults(animeName, website, results);
  }
}

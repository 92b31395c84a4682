/**
 The RSS ingestion cycle of `RSSManager`: build one fetch per configured URL
 that has a website handler, treat failed or malformed fetch outcomes as
 empty, and keep, in order, the entries that have a download URL, are not
 already downloaded and are not already being downloaded.
 */
module Rss {
  import opened Wrappers
  import opened Website
  import opened Seqs

  /** What `WebsiteFactory.create(url)` does: return a handler, return None, or raise. */
  datatype HandlerCreation<H> = Created(handler: H) | NoHandler | CreationRaised

  /** One fetch coroutine: `handler.fetch_feed(url)`. */
  datatype Fetch<H> = Fetch(handler: H, url: string)

  /** One result of `asyncio.gather(..., return_exceptions=True)`. */
  datatype FetchOutcome = Raised | Entries(entries: seq<ResourceInfo>) | Other

  /**
   The two lookups the filter makes: the history database by title, and the
   download manager's in-flight test, absent when there is no manager.
   */
  datatype Oracles = Oracles(
    isDownloaded: string -> bool,
    downloadManager: Option<ResourceInfo -> bool>)

  /** `_get_website_handler`: a creation that raises is reported as no handler. */
  function GetWebsiteHandler<H>(c: HandlerCreation<H>): (h: Option<H>)
    ensures h.Some? <==> c.Created?
    ensures c.Created? ==> h == Some(c.handler)
  {
    match c
    case Created(handler) => Some(handler)
    case NoHandler => None
    case CreationRaised => None
  }

  /** The fetch, if any, that one configured URL contributes. */
  function FetchFor<H>(url: string, factory: string -> HandlerCreation<H>): seq<Fetch<H>>
  {
    match GetWebsiteHandler(factory(url))
    case Some(h) => [Fetch(h, url)]
    case None => []
  }

  /** The fetches `_build_fetch_tasks` builds, in configuration order. */
  function FetchPlan<H>(urls: seq<string>, factory: string -> HandlerCreation<H>): seq<Fetch<H>>
  {
    if urls == [] then []
    else FetchPlan(urls[..|urls| - 1], factory) + FetchFor(urls[|urls| - 1], factory)
  }

  /** A URL's fetch depends on that URL alone: the plan of a concatenation is the concatenation of the plans. */
  lemma {:induction false} FetchPlanConcat<H>(a: seq<string>, b: seq<string>, factory: string -> HandlerCreation<H>)
    ensures FetchPlan(a + b, factory) == FetchPlan(a, factory) + FetchPlan(b, factory)
    decreases |b|
  {
    if b == [] {
      assert a + b == a;
    } else {
      var b' := b[..|b| - 1];
      assert (a + b)[..|a + b| - 1] == a + b';
      FetchPlanConcat(a, b', factory);
    }
  }

  /**
   A fetch is planned exactly for the URLs whose handler creation succeeds,
   and there are never more fetches than configured URLs.
   */
  lemma {:induction false} FetchPlanMembers<H>(urls: seq<string>, factory: string -> HandlerCreation<H>, f: Fetch<H>)
    ensures f in FetchPlan(urls, factory) <==> f.url in urls && factory(f.url) == Created(f.handler)
    ensures |FetchPlan(urls, factory)| <= |urls|
    decreases |urls|
  {
    if urls != [] {
      var u' := urls[..|urls| - 1];
      FetchPlanMembers(u', factory, f);
      assert urls == u' + [urls[|urls| - 1]];
    }
  }

  /** `_build_fetch_tasks`. */
  method BuildFetchTasks<H>(urls: seq<string>, factory: string -> HandlerCreation<H>) returns (tasks: seq<Fetch<H>>)
    ensures tasks == FetchPlan(urls, factory)
  {
    tasks := [];
    var i := 0;
    while i < |urls|
      invariant 0 <= i <= |urls|
      invariant tasks == FetchPlan(urls[..i], factory)
    {
      var url := urls[i];
      assert urls[..i + 1][..i] == urls[..i];
      var handler := GetWebsiteHandler(factory(url));
      if handler.Some? {
        tasks := tasks + [Fetch(handler.value, url)];
      }
      i := i + 1;
    }
    assert urls[..i] == urls;
  }

  /** `_is_valid_feed_result`: an exception or a non-list outcome is rejected. */
  predicate IsValidFeedResult(r: FetchOutcome) {
    r.Entries?
  }

  /** The entries an outcome contributes to the filter. */
  function ValidEntries(r: FetchOutcome): (s: seq<ResourceInfo>)
    ensures !IsValidFeedResult(r) ==> s == []
  {
    if IsValidFeedResult(r) then r.entries else []
  }

  /** Which check of `_should_skip_entry` rejects an entry. */
  datatype SkipReason = NoDownloadUrl | AlreadyDownloaded | AlreadyQueued

  /**
   `_should_skip_entry` as a decision: the first failing check, in the order
   URL, database, in-flight; None keeps the entry. The in-flight check is
   made only when there is a download manager.
   */
  function SkipReasonOf(e: ResourceInfo, o: Oracles): (r: Option<SkipReason>)
    ensures r == Some(NoDownloadUrl) <==> !HasDownloadUrl(e)
    ensures r == Some(AlreadyDownloaded) <==> HasDownloadUrl(e) && o.isDownloaded(e.title)
    ensures r == Some(AlreadyQueued) ==> o.downloadManager.Some?
  {
    if !HasDownloadUrl(e) then Some(NoDownloadUrl)
    else if o.isDownloaded(e.title) then Some(AlreadyDownloaded)
    else if o.downloadManager.Some? && o.downloadManager.value(e) then Some(AlreadyQueued)
    else None
  }

  predicate ShouldSkip(e: ResourceInfo, o: Oracles) {
    SkipReasonOf(e, o).Some?
  }

  /** The three requirements on a new entry, stated without any order. */
  predicate IsNewEntry(e: ResourceInfo, o: Oracles) {
    && HasDownloadUrl(e)
    && !o.isDownloaded(e.title)
    && !(o.downloadManager.Some? && o.downloadManager.value(e))
  }

  /** The short-circuit order changes which lookups run, not the decision. */
  lemma KeepIffNew(e: ResourceInfo, o: Oracles)
    ensures !ShouldSkip(e, o) <==> IsNewEntry(e, o)
  {
  }

  /** The entries of one outcome that the filter keeps, in order. */
  function Admitted(s: seq<ResourceInfo>, o: Oracles): seq<ResourceInfo>
  {
    if s == [] then []
    else Admitted(s[..|s| - 1], o) + (if ShouldSkip(s[|s| - 1], o) then [] else [s[|s| - 1]])
  }

  /** The output of `_collect_new_entries` over a sequence of outcomes. */
  function Collected(rs: seq<FetchOutcome>, o: Oracles): seq<ResourceInfo>
  {
    if rs == [] then []
    else Collected(rs[..|rs| - 1], o) + Admitted(ValidEntries(rs[|rs| - 1]), o)
  }

  /** All entries of the valid outcomes, concatenated in outcome order. */
  function AllEntries(rs: seq<FetchOutcome>): seq<ResourceInfo>
  {
    if rs == [] then []
    else AllEntries(rs[..|rs| - 1]) + ValidEntries(rs[|rs| - 1])
  }

  /** `_collect_new_entries`. */
  /** One more entry extends the filtered prefix by that entry unless it is skipped. */
  lemma AdmittedStep(entries: seq<ResourceInfo>, j: nat, o: Oracles)
    requires j < |entries|
    ensures Admitted(entries[..j + 1], o)
         == Admitted(entries[..j], o) + (if ShouldSkip(entries[j], o) then [] else [entries[j]])
  {
    assert entries[..j + 1][..j] == entries[..j];
  }

  /** One more outcome extends the collected prefix by its admitted entries. */
  lemma CollectedStep(rs: seq<FetchOutcome>, i: nat, o: Oracles)
    requires i < |rs|
    ensures Collected(rs[..i + 1], o) == Collected(rs[..i], o) + Admitted(ValidEntries(rs[i]), o)
  {
    assert rs[..i + 1][..i] == rs[..i];
  }

  /** The inner loop of `_collect_new_entries`: append one feed's new entries to `acc`. */
  method AppendNewEntries(acc: seq<ResourceInfo>, entries: seq<ResourceInfo>, o: Oracles)
    returns (newEntries: seq<ResourceInfo>)
    ensures newEntries == acc + Admitted(entries, o)
  {
    newEntries := acc;
    var j := 0;
    while j < |entries|
      invariant 0 <= j <= |entries|
      invariant newEntries == acc + Admitted(entries[..j], o)
    {
      var entry := entries[j];
      AdmittedStep(entries, j, o);
      if !ShouldSkip(entry, o) {
        newEntries := newEntries + [entry];
      }
      j := j + 1;
    }
    assert entries[..j] == entries;
  }

  method CollectNewEntries(results: seq<FetchOutcome>, o: Oracles) returns (newEntries: seq<ResourceInfo>)
    ensures newEntries == Collected(results, o)
  {
    newEntries := [];
    var i := 0;
    while i < |results|
      invariant 0 <= i <= |results|
      invariant newEntries == Collected(results[..i], o)
    {
      var result := results[i];
      CollectedStep(results, i, o);
      if IsValidFeedResult(result) {
        newEntries := AppendNewEntries(newEntries, result.entries, o);
      }
      i := i + 1;
    }
    assert results[..i] == results;
  }

  /** The outcome of each fetch, in the order the fetches were built. */
  function Gathered<H>(tasks: seq<Fetch<H>>, fetch: Fetch<H> -> FetchOutcome): (rs: seq<FetchOutcome>)
    ensures |rs| == |tasks|
    ensures forall k :: 0 <= k < |tasks| ==> rs[k] == fetch(tasks[k])
  {
    seq(|tasks|, k requires 0 <= k < |tasks| => fetch(tasks[k]))
  }

  /**
   `check_update`. The concurrent gather is represented by `fetch`, the
   outcome of each fetch; `fetched` is the list of fetches that were run.
   */
  method CheckUpdate<H>(urls: seq<string>, factory: string -> HandlerCreation<H>,
                        fetch: Fetch<H> -> FetchOutcome, o: Oracles)
    returns (newEntries: seq<ResourceInfo>, fetched: seq<Fetch<H>>)
    ensures urls == [] ==> fetched == [] && newEntries == []
    ensures fetched == FetchPlan(urls, factory)
    ensures newEntries == Collected(Gathered(fetched, fetch), o)
  {
    if urls == [] {
      return [], [];
    }
    var tasks := BuildFetchTasks(urls, factory);
    if tasks == [] {
      return [], [];
    }
    var results := Gathered(tasks, fetch);
    newEntries := CollectNewEntries(results, o);
    fetched := tasks;
  }

  // ----- properties of the filter -----

  lemma {:induction false} AdmittedSubsequence(s: seq<ResourceInfo>, o: Oracles)
    ensures IsSubsequence(Admitted(s, o), s)
    decreases |s|
  {
    if s != [] {
      var s', x := s[..|s| - 1], s[|s| - 1];
      AdmittedSubsequence(s', o);
      assert s == s' + [x];
      if ShouldSkip(x, o) {
        assert Admitted(s, o) == Admitted(s', o) + [];
        assert Admitted(s', o) + [] == Admitted(s', o);
        SubsequenceExtend(Admitted(s', o), s', x);
      } else {
        SubsequenceConcat(Admitted(s', o), s', [x], [x]);
      }
    }
  }

  /** The output keeps the order of the entries it was drawn from. */
  lemma {:induction false} CollectedSubsequence(rs: seq<FetchOutcome>, o: Oracles)
    ensures IsSubsequence(Collected(rs, o), AllEntries(rs))
    decreases |rs|
  {
    if rs != [] {
      var rs' := rs[..|rs| - 1];
      CollectedSubsequence(rs', o);
      AdmittedSubsequence(ValidEntries(rs[|rs| - 1]), o);
      SubsequenceConcat(Collected(rs', o), AllEntries(rs'),
                        Admitted(ValidEntries(rs[|rs| - 1]), o), ValidEntries(rs[|rs| - 1]));
    }
  }

  lemma {:induction false} AdmittedMembers(s: seq<ResourceInfo>, o: Oracles, e: ResourceInfo)
    ensures e in Admitted(s, o) <==> e in s && IsNewEntry(e, o)
    decreases |s|
  {
    if s != [] {
      var s' := s[..|s| - 1];
      AdmittedMembers(s', o, e);
      assert s == s' + [s[|s| - 1]];
    }
  }

  /**
   Soundness and completeness: an entry is in the output exactly when some
   valid outcome holds it and it passes all three checks.
   */
  lemma {:induction false} CollectedMembers(rs: seq<FetchOutcome>, o: Oracles, e: ResourceInfo)
    ensures e in Collected(rs, o) <==> e in AllEntries(rs) && IsNewEntry(e, o)
    decreases |rs|
  {
    if rs != [] {
      var rs' := rs[..|rs| - 1];
      CollectedMembers(rs', o, e);
      AdmittedMembers(ValidEntries(rs[|rs| - 1]), o, e);
    }
  }

  /** An entry of a valid outcome is in the concatenation the filter reads. */
  lemma {:induction false} ValidOutcomeEntries(rs: seq<FetchOutcome>, k: nat, e: ResourceInfo)
    requires k < |rs| && rs[k].Entries? && e in rs[k].entries
    ensures e in AllEntries(rs)
    decreases |rs|
  {
    if k < |rs| - 1 {
      ValidOutcomeEntries(rs[..|rs| - 1], k, e);
    }
  }

  /** An invalid outcome contributes nothing, wherever it stands. */
  lemma {:induction false} InvalidOutcomeIgnored(rs: seq<FetchOutcome>, r: FetchOutcome, o: Oracles)
    requires !IsValidFeedResult(r)
    ensures Collected(rs + [r], o) == Collected(rs, o)
    ensures AllEntries(rs + [r]) == AllEntries(rs)
  {
    assert (rs + [r])[..|rs + [r]| - 1] == rs;
  }

  lemma {:induction false} AdmittedOfAllNew(s: seq<ResourceInfo>, o: Oracles)
    requires forall i :: 0 <= i < |s| ==> IsNewEntry(s[i], o)
    ensures Admitted(s, o) == s
    decreases |s|
  {
    if s != [] {
      var s', last := s[..|s| - 1], s[|s| - 1];
      assert forall i :: 0 <= i < |s'| ==> s'[i] == s[i];
      AdmittedOfAllNew(s', o);
      KeepIffNew(last, o);
      assert !ShouldSkip(last, o);
      assert s == s' + [last];
    }
  }

  /** Filtering a concatenation filters each part. */
  lemma {:induction false} AdmittedConcat(a: seq<ResourceInfo>, b: seq<ResourceInfo>, o: Oracles)
    ensures Admitted(a + b, o) == Admitted(a, o) + Admitted(b, o)
    decreases |b|
  {
    if b == [] {
      assert a + b == a;
    } else {
      var b', x := b[..|b| - 1], b[|b| - 1];
      assert (a + b)[..|a + b| - 1] == a + b' && (a + b)[|a + b| - 1] == x;
      AdmittedConcat(a, b', o);
    }
  }

  /**
   The output is one filter over all entries of the valid outcomes, in
   order and with every copy of a repeated new entry kept.
   */
  lemma {:induction false} CollectedIsFilterOfAll(rs: seq<FetchOutcome>, o: Oracles)
    ensures Collected(rs, o) == Admitted(AllEntries(rs), o)
    decreases |rs|
  {
    if rs != [] {
      var rs' := rs[..|rs| - 1];
      CollectedIsFilterOfAll(rs', o);
      AdmittedConcat(AllEntries(rs'), ValidEntries(rs[|rs| - 1]), o);
    }
  }

  /** One feed's filter keeps every copy of a new entry and no copy of any other. */
  lemma {:induction false} AdmittedCount(s: seq<ResourceInfo>, o: Oracles, e: ResourceInfo)
    ensures multiset(Admitted(s, o))[e] == if IsNewEntry(e, o) then multiset(s)[e] else 0
    decreases |s|
  {
    if s != [] {
      var s', x := s[..|s| - 1], s[|s| - 1];
      AdmittedCount(s', o, e);
      assert s == s' + [x];
      KeepIffNew(x, o);
    }
  }

  /** Each new entry appears in the output as often as the valid outcomes list it; any other entry never. */
  lemma CollectedCount(rs: seq<FetchOutcome>, o: Oracles, e: ResourceInfo)
    ensures multiset(Collected(rs, o))[e] == if IsNewEntry(e, o) then multiset(AllEntries(rs))[e] else 0
  {
    CollectedIsFilterOfAll(rs, o);
    AdmittedCount(AllEntries(rs), o, e);
  }

  /** A new entry listed twice by one feed is collected twice. */
  lemma CollectedKeepsDuplicates(e: ResourceInfo, o: Oracles)
    requires IsNewEntry(e, o)
    ensures Collected([Entries([e, e])], o) == [e, e]
  {
    var rs := [Entries([e, e])];
    AdmittedOfAllNew([e, e], o);
    assert rs[..0] == [];
    assert Collected(rs, o) == Collected([], o) + Admitted([e, e], o);
  }

  /** With the lookups unchanged, filtering the output again changes nothing. */
  lemma FilterIdempotent(rs: seq<FetchOutcome>, o: Oracles)
    ensures Admitted(Collected(rs, o), o) == Collected(rs, o)
  {
    var c := Collected(rs, o);
    forall i | 0 <= i < |c| ensures IsNewEntry(c[i], o) {
      CollectedMembers(rs, o, c[i]);
    }
    AdmittedOfAllNew(Collected(rs, o), o);
  }
}

/**
 The feed entry produced by the website handlers. The handlers themselves
 (`core/website`) are not part of this model; only the fields that the
 ingestion filter and the search tool read are kept.
 */
module Website {
  import opened Wrappers

  /** One candidate release discovered in a feed (`AnimeResourceInfo`). */
  datatype ResourceInfo = ResourceInfo(
    title: string,
    downloadUrl: Option<string>,
    animeName: Option<string>,
    episode: Option<int>,
    quality: Option<string>)   // the `value` of the quality enum, when present

  /** Python truthiness of `entry.download_url`: present and not the empty string. */
  predicate HasDownloadUrl(e: ResourceInfo) {
    e.downloadUrl.Some? && e.downloadUrl.value != ""
  }
}

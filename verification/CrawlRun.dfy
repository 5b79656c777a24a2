/** The kinds of crawl run (crates/erabi-domain/src/status.rs). */
module CrawlRun {
  datatype RunType = QuickScrape | TestRun | DiscoveryPreview | ProductionRun
}

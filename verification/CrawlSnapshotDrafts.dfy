/** Which drafts become snapshots, and what a refused one is blamed for. */
module CrawlSnapshotDrafts {
  import opened CrawlRun
  import opened CrawlSnapshot
  import opened Text
  import opened Wrappers

  // Something is left when the text is trimmed.
  ghost predicate SaysSomething(s: string) { exists i | 0 <= i < |s| :: s[i] !in SPACES }

  const HEX_DIGITS := "0123456789abcdefABCDEF"

  ghost predicate TextsOk(d: Draft) {
    && SaysSomething(d.actor) && SaysSomething(d.createdAt) && SaysSomething(d.settings.userAgent)
    && SaysSomething(d.robots.actor) && SaysSomething(d.robots.decidedAt) && SaysSomething(d.robots.scope)
    && SaysSomething(d.robots.userAgent)
    && (d.robots.decision.Override? ==> SaysSomething(d.robots.decision.reason))
  }

  ghost predicate IsSha256(s: string) { |s| == 64 && forall i | 0 <= i < 64 :: s[i] in HEX_DIGITS }

  // The version that the configuration is about.
  function VersionOf(c: Configuration): Option<string> { if c.AdHoc? then None else Some(c.versionId) }

  lemma FilledMeans(s: string)
    ensures Filled(s) <==> SaysSomething(s)
  {
    forall c: char ensures White(c) <==> c in SPACES { SpacesAreListed(c); }
    hide White, SPACES;
    if Filled(s) {
      var c :| c in s && !White(c);
      var i :| 0 <= i < |s| && s[i] == c;
    }
  }

  lemma HexMeans(c: char)
    ensures HexChar(c) <==> c in HEX_DIGITS
  {
    if HexChar(c) {
      var i := if c <= '9' then c - '0' else if c >= 'a' then c - 'a' + 10 as char else c - 'A' + 16 as char;
      assert HEX_DIGITS[i as int] == c;
    }
  }

  lemma HashMeans(s: string)
    ensures |s| == 64 && (forall c <- s :: HexChar(c)) <==> IsSha256(s)
  {
    forall c: char ensures HexChar(c) <==> c in HEX_DIGITS { HexMeans(c); }
    hide HexChar, HEX_DIGITS;
    if IsSha256(s) {
      forall c <- s ensures HexChar(c) { var i :| 0 <= i < |s| && s[i] == c; }
    }
    if |s| == 64 && forall c <- s :: HexChar(c) {
      forall i | 0 <= i < 64 ensures s[i] in HEX_DIGITS { assert s[i] in s; }
    }
  }

  lemma TextsMean(d: Draft)
    ensures TextsOk(d) <==>
              (&& Filled(d.actor) && Filled(d.createdAt) && Filled(d.settings.userAgent)
               && Filled(d.robots.actor) && Filled(d.robots.decidedAt) && Filled(d.robots.scope) && Filled(d.robots.userAgent)
               && (d.robots.decision.Override? ==> Filled(d.robots.decision.reason)))
  {
    forall s: string ensures Filled(s) <==> SaysSomething(s) { FilledMeans(s); }
    hide Filled, SaysSomething;
  }

  /** A draft becomes a snapshot exactly when every text says something, an override gives its reason in no
      more than 1000 characters, the robots decision is about the resolved user agent and about the
      version that is run, a quick scrape and nothing else is configured ad hoc, and a version comes with a
      SHA-256 value.  What fails first of these is blamed. */
  lemma AcceptedDrafts(d: Draft, hash: Hash)
    ensures var problem :=
              if !TextsOk(d) then Some(EmptyText)
              else if d.robots.decision.Override? && |d.robots.decision.reason| > 1000 then Some(ReasonTooLong)
              else if d.settings.userAgent != d.robots.userAgent then Some(AgentMismatch)
              else if d.runType == QuickScrape <==> d.configuration.CrawlerVersion? then Some(WrongConfiguration)
              else if d.robots.versionId != VersionOf(d.configuration) then Some(WrongVersion)
              else if d.configuration.CrawlerVersion? && !IsSha256(d.configuration.semanticHash) then Some(BadSemanticHash)
              else None;
            if problem.Some? then New(d, hash) == Err(problem.value) else New(d, hash).Ok? && New(d, hash).value.draft == d
  {
    TextsMean(d);
    if d.configuration.CrawlerVersion? { HashMeans(d.configuration.semanticHash); }
    hide Filled, TextsOk, IsSha256, HexChar;
  }
}

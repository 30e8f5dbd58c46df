/**
 * Server migration (MainActivity.checkServerMigration). A configuration may
 * name a new server URL. When the trimmed URL is not blank, parses, differs
 * from the current server and the new server answers a probe, the activity
 * switches its endpoints and fetches the configuration again; in every other
 * case the endpoints stay as they are and the flow goes on to the push service.
 */
module Migration {
  import opened Common

  /** A character java.lang.String.trim removes: any code point up to U+0020. */
  predicate IsTrimmed(c: char) {
    c <= ' '
  }

  function TrimStart(s: string): (r: string)
    decreases |s|
    ensures |r| <= |s| && r == s[|s| - |r|..]
    ensures |r| > 0 ==> !IsTrimmed(r[0])
    ensures forall i :: 0 <= i < |s| - |r| ==> IsTrimmed(s[i])
  {
    if |s| > 0 && IsTrimmed(s[0]) then TrimStart(s[1..]) else s
  }

  function TrimEnd(s: string): (r: string)
    decreases |s|
    ensures |r| <= |s| && r == s[..|r|]
    ensures |r| > 0 ==> !IsTrimmed(r[|r| - 1])
    ensures forall i :: |r| <= i < |s| ==> IsTrimmed(s[i])
  {
    if |s| > 0 && IsTrimmed(s[|s| - 1]) then TrimEnd(s[..|s| - 1]) else s
  }

  /**
   * `r` is `s` with the first `k` characters and everything after `k + |r|`
   * cut off, and every character cut off is trimmed.
   */
  predicate CutFrom(s: string, r: string, k: int)
  {
    && 0 <= k <= |s| - |r|
    && r == s[k..k + |r|]
    && (forall i :: 0 <= i < k ==> IsTrimmed(s[i]))
    && (forall i :: k + |r| <= i < |s| ==> IsTrimmed(s[i]))
  }

  /** java.lang.String.trim. */
  function Trim(s: string): (r: string)
    ensures exists k :: CutFrom(s, r, k)
    ensures |r| > 0 ==> !IsTrimmed(r[0]) && !IsTrimmed(r[|r| - 1])
  {
    var k := |s| - |TrimStart(s)|;
    var r := TrimEnd(TrimStart(s));
    assert CutFrom(s, r, k);
    r
  }

  /** A URL trims to the empty string exactly when it consists of trimmed characters only. */
  lemma BlankIffAllTrimmed(s: string)
    ensures Trim(s) == [] <==> forall i :: 0 <= i < |s| ==> IsTrimmed(s[i])
  {
  }

  /** The active server endpoints kept by the settings. */
  datatype Endpoints = Endpoints(baseUrl: string, secondaryBaseUrl: string, project: string)

  /** What MigrationHelper makes of a well-formed target URL. */
  datatype Target = Target(baseUrl: string, project: string)

  datatype Probe = ProbeSucceeded | ProbeFailed(cause: string)

  /** Everything checkServerMigration learns from the outside world. */
  datatype MigrationFacts = MigrationFacts(
    /** The target parsed from the trimmed URL; None when the URL is malformed. */
    parsed: Option<Target>,
    /** MigrationHelper.needMigrating: the target differs from the current server. */
    needMigrating: bool,
    /** Outcome of MigrationHelper.tryNewServer. */
    probe: Probe)

  datatype MigrationStep =
    | Migrated(endpoints: Endpoints)   // then configInitializing := false and updateConfig(false)
    | Continue(endpoints: Endpoints)   // setupPushService

  /** The configuration asks for a migration: a new server URL that is not blank. */
  predicate WantsMigration(newServerUrl: Option<string>) {
    newServerUrl.Some? && Trim(newServerUrl.value) != []
  }

  /** MainActivity.checkServerMigration with the outcome of the probe already known. */
  function CheckServerMigration(e: Endpoints, newServerUrl: Option<string>, facts: MigrationFacts): (r: MigrationStep)
    ensures r.Migrated? <==>
      && WantsMigration(newServerUrl)
      && facts.parsed.Some?
      && facts.needMigrating
      && facts.probe == ProbeSucceeded
    // the probed server becomes both the primary and the secondary endpoint
    ensures r.Migrated? ==>
      r.endpoints == Endpoints(facts.parsed.value.baseUrl, facts.parsed.value.baseUrl, facts.parsed.value.project)
    // every other path leaves the endpoints as they were
    ensures r.Continue? ==> r.endpoints == e
  {
    if WantsMigration(newServerUrl) then
      match facts.parsed
      case None => Continue(e)     // malformed URL
      case Some(t) =>
        if !facts.needMigrating then Continue(e)
        else if facts.probe == ProbeSucceeded then Migrated(Endpoints(t.baseUrl, t.baseUrl, t.project))
        else Continue(e)
    else Continue(e)
  }

  /** A target made only of code points up to U+0020 never moves the device. */
  lemma BlankTargetNeverMigrates(e: Endpoints, url: string, facts: MigrationFacts)
    requires forall i :: 0 <= i < |url| ==> IsTrimmed(url[i])
    ensures CheckServerMigration(e, Some(url), facts) == Continue(e)
  {
  }

  /** A failed probe never changes the endpoints, whatever the target. */
  lemma FailedProbeKeepsEndpoints(e: Endpoints, url: Option<string>, parsed: Option<Target>, needMigrating: bool, cause: string)
    ensures CheckServerMigration(e, url, MigrationFacts(parsed, needMigrating, ProbeFailed(cause))) == Continue(e)
  {
  }
}

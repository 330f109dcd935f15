/** Branch filters: the configuration value, the factory that picks a filter
    variant from it, and the regular-expression filter. */
module BranchFilters {
  import opened Wrappers
  import opened JavaStrings

  /** The constants of the BranchFilterType enum. */
  datatype BranchFilterType = All | NameBasedFilter | RegexBasedFilter

  /** BranchFilterConfig as its builder produces it; a Java null type is None. */
  datatype BranchFilterConfig = BranchFilterConfig(
    filterType: Option<BranchFilterType>,
    includeBranchesSpec: Option<string>,
    excludeBranchesSpec: Option<string>,
    targetBranchRegex: Option<string>)

  /** The filter variants. NameBasedFilter and AllBranchesFilter are tags that
      carry what they were built from; only RegexBasedFilter's verdict is modelled. */
  datatype BranchFilter =
    | AllBranches
    | NameBased(includeSpec: Option<string>, excludeSpec: Option<string>)
    | RegexBased(regex: Option<string>)

  /** A full-string match of a Java regular expression against a name, as
      String.matches does; the regex engine itself is not modelled. */
  type FullMatch = (string, string) -> bool

  /** The enum constant's name. */
  function TypeName(t: BranchFilterType): string {
    match t
    case All => "All"
    case NameBasedFilter => "NameBasedFilter"
    case RegexBasedFilter => "RegexBasedFilter"
  }

  /** BranchFilterType.valueOf: the constant with exactly this name, or None
      where Java throws IllegalArgumentException. */
  function ValueOf(name: string): (r: Option<BranchFilterType>)
    ensures r.Some? ==> TypeName(r.value) == name
    ensures r.None? ==> forall t: BranchFilterType :: TypeName(t) != name
  {
    if name == "All" then Some(All)
    else if name == "NameBasedFilter" then Some(NameBasedFilter)
    else if name == "RegexBasedFilter" then Some(RegexBasedFilter)
    else None
  }

  /** valueOf inverts name(). */
  lemma ValueOfTypeName(t: BranchFilterType)
    ensures ValueOf(TypeName(t)) == Some(t)
  {
  }

  /** BranchFilterFactory.newBranchFilter. A switch on a null enum throws, so the
      type must be set. */
  function NewBranchFilter(config: BranchFilterConfig): (f: BranchFilter)
    requires config.filterType.Some?
    ensures f.NameBased? <==> config.filterType == Some(NameBasedFilter)
    ensures f.RegexBased? <==> config.filterType == Some(RegexBasedFilter)
    ensures f.NameBased? ==> f.includeSpec == config.includeBranchesSpec && f.excludeSpec == config.excludeBranchesSpec
    ensures f.RegexBased? ==> f.regex == config.targetBranchRegex
  {
    match config.filterType.value
    case NameBasedFilter => NameBased(config.includeBranchesSpec, config.excludeBranchesSpec)
    case RegexBasedFilter => RegexBased(config.targetBranchRegex)
    case All => AllBranches
  }

  /** Every type other than the two named ones yields AllBranchesFilter. */
  lemma OtherTypesAllowAll(config: BranchFilterConfig)
    requires config.filterType == Some(All)
    ensures NewBranchFilter(config) == AllBranches
  {
  }

  /** The factory reads only the fields that belong to the chosen type. */
  lemma IrrelevantFieldsIgnored(config: BranchFilterConfig, inc: Option<string>, exc: Option<string>, regex: Option<string>)
    requires config.filterType.Some?
    ensures config.filterType == Some(NameBasedFilter) ==>
      NewBranchFilter(config) == NewBranchFilter(config.(targetBranchRegex := regex))
    ensures config.filterType == Some(RegexBasedFilter) ==>
      NewBranchFilter(config) == NewBranchFilter(config.(includeBranchesSpec := inc, excludeBranchesSpec := exc))
    ensures config.filterType == Some(All) ==>
      NewBranchFilter(config) == NewBranchFilter(BranchFilterConfig(Some(All), inc, exc, regex))
  {
  }

  /** RegexBasedFilter.isBranchAllowed: fail open on an empty branch name or an
      empty regex, otherwise a full match of the whole name. */
  function RegexIsBranchAllowed(regex: Option<string>, branchName: Option<string>, fullMatch: FullMatch): bool {
    IsEmpty(branchName) || IsEmpty(regex) || fullMatch(branchName.value, regex.value)
  }

  /** An empty or null branch name is allowed whatever the regex and the matcher. */
  lemma EmptyBranchAllowed(regex: Option<string>, branchName: Option<string>, fullMatch: FullMatch)
    requires IsEmpty(branchName)
    ensures RegexIsBranchAllowed(regex, branchName, fullMatch)
  {
  }

  /** An empty or null regex allows every branch. */
  lemma EmptyRegexAllowsAll(regex: Option<string>, branchName: Option<string>, fullMatch: FullMatch)
    requires IsEmpty(regex)
    ensures RegexIsBranchAllowed(regex, branchName, fullMatch)
  {
  }

  /** With a non-empty name and a non-empty regex, the verdict is exactly the
      full match; so a regex of one space is not treated as empty. */
  lemma NonEmptyRegexIsFullMatch(regex: string, branchName: string, fullMatch: FullMatch)
    requires regex != [] && branchName != []
    ensures RegexIsBranchAllowed(Some(regex), Some(branchName), fullMatch) == fullMatch(branchName, regex)
  {
  }

  /** A blank but non-empty regex can reject: "isEmpty", not "isBlank", is the test. */
  lemma BlankRegexCanReject()
    ensures !RegexIsBranchAllowed(Some(" "), Some("master"), (name: string, re: string) => name == re)
  {
  }

  /** A matcher that agrees with Java on the pattern "feature/.*" over names
      without a line terminator: there '.*' matches any rest, so a full match
      means starting with "feature/". */
  ghost predicate MatchesFeaturePrefix(fullMatch: FullMatch) {
    forall name: string :: HasNoLineTerminator(name) ==>
      (fullMatch(name, "feature/.*") <==> StartsWith(name, "feature/"))
  }

  /** The test cases the regex "feature/.*" accepts. */
  lemma FeatureRegexAccepts(fullMatch: FullMatch)
    requires MatchesFeaturePrefix(fullMatch)
    ensures RegexIsBranchAllowed(Some("feature/.*"), Some("feature/test"), fullMatch)
    ensures RegexIsBranchAllowed(Some("feature/.*"), Some("feature/awesome-feature"), fullMatch)
  {
    assert HasNoLineTerminator("feature/test");
    assert HasNoLineTerminator("feature/awesome-feature");
    assert StartsWith("feature/test", "feature/");
    assert StartsWith("feature/awesome-feature", "feature/");
  }

  /** The test cases the regex "feature/.*" rejects. */
  lemma FeatureRegexRejects(fullMatch: FullMatch)
    requires MatchesFeaturePrefix(fullMatch)
    ensures !RegexIsBranchAllowed(Some("feature/.*"), Some("hotfix/test"), fullMatch)
    ensures !RegexIsBranchAllowed(Some("feature/.*"), Some("hotfix/awesome-feature"), fullMatch)
    ensures !RegexIsBranchAllowed(Some("feature/.*"), Some("master"), fullMatch)
    ensures !RegexIsBranchAllowed(Some("feature/.*"), Some("develop"), fullMatch)
  {
    assert HasNoLineTerminator("hotfix/test");
    assert HasNoLineTerminator("hotfix/awesome-feature");
    assert HasNoLineTerminator("master");
    assert HasNoLineTerminator("develop");
    assert !StartsWith("hotfix/test", "feature/") by { assert "hotfix/test"[0] != "feature/"[0]; }
    assert !StartsWith("hotfix/awesome-feature", "feature/") by { assert "hotfix/awesome-feature"[0] != "feature/"[0]; }
    assert !StartsWith("master", "feature/");
    assert !StartsWith("develop", "feature/");
  }

  /** RegexBasedFilter.getConfig: a config of type RegexBasedFilter carrying only the regex. */
  function RegexGetConfig(regex: Option<string>): (config: BranchFilterConfig)
    ensures config.filterType == Some(RegexBasedFilter)
    ensures config.includeBranchesSpec.None? && config.excludeBranchesSpec.None?
    ensures config.targetBranchRegex == regex
  {
    BranchFilterConfig(Some(RegexBasedFilter), None, None, regex)
  }

  /** Round trip: the factory rebuilds a regex filter from its own config, so it
      gives the same verdict on every branch. */
  lemma RegexConfigRoundTrip(regex: Option<string>, branchName: Option<string>, fullMatch: FullMatch)
    ensures NewBranchFilter(RegexGetConfig(regex)) == RegexBased(regex)
    ensures RegexIsBranchAllowed(NewBranchFilter(RegexGetConfig(regex)).regex, branchName, fullMatch)
         == RegexIsBranchAllowed(regex, branchName, fullMatch)
  {
  }
}

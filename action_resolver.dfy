/** ActionResolver: from a webhook request to the project it names and the
    action that serves it. */
module ActionResolver {
  import opened Wrappers
  import opened JavaStrings
  import opened Jenkins

  // ---------------------------------------------------------------------------
  // Splitting the rest of the path on '/' and joining it again

  /** A path part as Splitter.on('/').omitEmptyStrings() yields it. */
  predicate IsPart(p: string) {
    p != "" && '/' !in p
  }

  /** The index of the first '/', or the length when there is none. */
  function FirstSlash(s: string): (k: nat)
    ensures k <= |s|
    ensures k < |s| ==> s[k] == '/'
    ensures forall j :: 0 <= j < k ==> s[j] != '/'
  {
    if s == [] || s[0] == '/' then 0 else 1 + FirstSlash(s[1..])
  }

  /** Splitter.on('/').omitEmptyStrings().split(s), as a list. */
  function Split(s: string): (parts: seq<string>)
    ensures forall i :: 0 <= i < |parts| ==> IsPart(parts[i])
    decreases |s|
  {
    if s == [] then []
    else
      var k := FirstSlash(s);
      var segment := s[..k];
      var rest := if k < |s| then s[k + 1..] else [];
      assert '/' !in segment;
      (if segment == [] then [] else [segment]) + Split(rest)
  }

  /** Joiner.on('/').join(parts). */
  function Join(parts: seq<string>): string {
    if parts == [] then ""
    else if |parts| == 1 then parts[0]
    else parts[0] + "/" + Join(parts[1..])
  }

  /** No slash at either end and no two slashes in a row. */
  predicate Normalised(t: string) {
    t == "" || (t[0] != '/' && t[|t| - 1] != '/' && forall i :: 0 <= i < |t| - 1 && t[i] == '/' ==> t[i + 1] != '/')
  }

  /** Joining parts gives a normalised path, empty only for no parts. */
  lemma {:induction false} JoinNormalised(parts: seq<string>)
    requires forall i :: 0 <= i < |parts| ==> IsPart(parts[i])
    ensures Normalised(Join(parts))
    ensures Join(parts) == "" <==> parts == []
  {
    if |parts| > 1 {
      var tail := parts[1..];
      JoinNormalised(tail);
      var p, t := parts[0], Join(tail);
      var j := p + "/" + t;
      assert j == Join(parts);
      forall i | 0 <= i < |j| - 1 && j[i] == '/'
        ensures j[i + 1] != '/'
      {
        if i == |p| {
          assert j[i + 1] == t[0];
        } else if i > |p| {
          assert j[i] == t[i - |p| - 1] && j[i + 1] == t[i - |p|];
        }
      }
      assert j[|j| - 1] == t[|t| - 1];
    } else if |parts| == 1 {
      var p := parts[0];
      assert forall i :: 0 <= i < |p| ==> p[i] != '/';
    }
  }

  /** The first '/' after a slash-free prefix is where the prefix ends. */
  lemma {:induction false} FirstSlashAfter(p: string, t: string)
    requires '/' !in p
    requires t == [] || t[0] == '/'
    ensures FirstSlash(p + t) == |p|
  {
    if p != [] {
      assert (p + t)[0] == p[0];
      assert (p + t)[1..] == p[1..] + t;
      FirstSlashAfter(p[1..], t);
    }
  }

  /** Splitting a part followed by '/' and more. */
  lemma SplitCons(p: string, rest: string)
    requires IsPart(p)
    ensures Split(p + "/" + rest) == [p] + Split(rest)
  {
    var s := p + "/" + rest;
    FirstSlashAfter(p, "/" + rest);
    assert s == p + ("/" + rest);
    assert s[..|p|] == p;
    assert s[|p| + 1..] == rest;
  }

  /** Splitting a single part. */
  lemma SplitPart(p: string)
    requires IsPart(p)
    ensures Split(p) == [p]
  {
    FirstSlashAfter(p, []);
    assert p + [] == p;
    assert p[..|p|] == p;
  }

  /** Splitting what was joined gives the parts back. */
  lemma {:induction false} SplitJoin(parts: seq<string>)
    requires forall i :: 0 <= i < |parts| ==> IsPart(parts[i])
    ensures Split(Join(parts)) == parts
  {
    if |parts| == 1 {
      SplitPart(parts[0]);
    } else if |parts| > 1 {
      var p, tail := parts[0], parts[1..];
      SplitJoin(tail);
      SplitCons(p, Join(tail));
      assert parts == [p] + tail;
    }
  }

  /** A normalised path that holds a '/' is a part, a '/' and a normalised
      non-empty rest. */
  lemma NormalisedDecompose(s: string)
    requires Normalised(s) && s != []
    ensures var k := FirstSlash(s);
      && IsPart(s[..k])
      && (k == |s| ==> s[..k] == s)
      && (k < |s| ==> var rest := s[k + 1..]; rest != [] && Normalised(rest) && s == s[..k] + "/" + rest)
  {
    var k := FirstSlash(s);
    assert k > 0;
    assert forall j :: 0 <= j < k ==> s[..k][j] == s[j];
    if k < |s| {
      var rest := s[k + 1..];
      assert k + 1 < |s|;
      assert rest[0] == s[k + 1];
      assert rest[|rest| - 1] == s[|s| - 1];
      forall i | 0 <= i < |rest| - 1 && rest[i] == '/'
        ensures rest[i + 1] != '/'
      {
        assert rest[i] == s[k + 1 + i];
        assert rest[i + 1] == s[k + 1 + i + 1];
      }
      assert s == s[..k] + "/" + rest;
    }
  }

  /** Joining what was split gives back a normalised path unchanged. */
  lemma {:induction false} JoinSplit(s: string)
    requires Normalised(s)
    ensures Join(Split(s)) == s
    decreases |s|
  {
    if s != [] {
      NormalisedDecompose(s);
      var k := FirstSlash(s);
      var segment := s[..k];
      if k == |s| {
        SplitPart(s);
      } else {
        var rest := s[k + 1..];
        JoinSplit(rest);
        SplitCons(segment, rest);
        var tail := Split(rest);
        assert tail != [];
        assert ([segment] + tail)[1..] == tail;
      }
    }
  }

  /** The parts left after the project are re-joined into a normalised path. */
  lemma RemainingPathNormalised(s: string, next: nat)
    requires next <= |Split(s)|
    ensures Normalised(Join(Split(s)[next..]))
  {
    var parts := Split(s)[next..];
    assert forall i :: 0 <= i < |parts| ==> parts[i] == Split(s)[next + i];
    JoinNormalised(parts);
  }

  // ---------------------------------------------------------------------------
  // Finding the project

  /** An item as resolveProject's instanceof tests see it. */
  datatype JenkinsItem = JenkinsItem(fullName: string, isItemGroup: bool, isAbstractProject: bool)

  /** The item lookups of the running Jenkins: getItemByFullName and
      getItem(name, group). */
  datatype ItemLookup = ItemLookup(
    byFullName: string -> Option<JenkinsItem>,
    child: (string, JenkinsItem) -> Option<JenkinsItem>)

  /** The walk goes on into an item group that is not itself a project. */
  predicate Descends(item: Option<JenkinsItem>) {
    item.Some? && item.value.isItemGroup && !item.value.isAbstractProject
  }

  /** Where the walk stops: the item reached and the index of the first part
      not consumed. */
  datatype WalkEnd = WalkEnd(item: Option<JenkinsItem>, next: nat)

  /** The walk from item over parts[i..]: one part per step into a group. It
      consumes a prefix of the parts, and stops either on an item it does not
      descend into or when the parts run out. */
  function Walk(lookup: ItemLookup, item: Option<JenkinsItem>, parts: seq<string>, i: nat): (r: WalkEnd)
    requires i <= |parts|
    ensures i <= r.next <= |parts|
    ensures !Descends(r.item) || r.next == |parts|
    ensures !Descends(item) ==> r == WalkEnd(item, i)
    decreases |parts| - i
  {
    if Descends(item) && i < |parts| then Walk(lookup, lookup.child(parts[i], item.value), parts, i + 1)
    else WalkEnd(item, i)
  }

  /** The specification of resolveProject: the project the walk ends on, if
      it ends on one, and how many parts it consumed. A missing Jenkins
      instance finds nothing and consumes nothing. */
  function ResolvedProject(jenkins: Option<ItemLookup>, projectName: string, parts: seq<string>): (r: WalkEnd)
    ensures r.next <= |parts|
    ensures r.item.Some? ==> r.item.value.isAbstractProject
    ensures jenkins.None? ==> r == WalkEnd(None, 0)
  {
    match jenkins
    case None => WalkEnd(None, 0)
    case Some(lookup) =>
      var w := Walk(lookup, lookup.byFullName(projectName), parts, 0);
      WalkEnd(if w.item.Some? && w.item.value.isAbstractProject then w.item else None, w.next)
  }

  /** A project found by its full name consumes no part of the path. */
  lemma ProjectByFullNameConsumesNothing(lookup: ItemLookup, projectName: string, parts: seq<string>)
    requires lookup.byFullName(projectName).Some? && lookup.byFullName(projectName).value.isAbstractProject
    ensures ResolvedProject(Some(lookup), projectName, parts) == WalkEnd(lookup.byFullName(projectName), 0)
  {
  }

  /** resolveProject: advances the shared iterator (here, the index next)
      while the item is a group that is not a project. */
  method ResolveProject(jenkins: Option<ItemLookup>, projectName: string, parts: seq<string>)
    returns (project: Option<JenkinsItem>, next: nat)
    ensures WalkEnd(project, next) == ResolvedProject(jenkins, projectName, parts)
  {
    next := 0;
    if jenkins.None? {
      return None, 0;
    }
    var lookup := jenkins.value;
    var item := lookup.byFullName(projectName);
    while Descends(item) && next < |parts|
      invariant next <= |parts|
      invariant Walk(lookup, item, parts, next) == Walk(lookup, lookup.byFullName(projectName), parts, 0)
      decreases |parts| - next
    {
      item := lookup.child(parts[next], item.value);
      next := next + 1;
    }
    project := if item.Some? && item.value.isAbstractProject then item else None;
  }

  // ---------------------------------------------------------------------------
  // The commit-status pattern
  //   ^(refs/[^/]+/)?(commits|builds)/(?<sha1>[0-9a-fA-F]+)(?<statusJson>/status.json)?$

  /** The two path words the pattern accepts. */
  datatype BuildKind = Commits | Builds

  function KindName(kind: BuildKind): string {
    match kind
    case Commits => "commits"
    case Builds => "builds"
  }

  /** A successful match: the optional refs segment, the word, the sha1 group
      and the statusJson group. */
  datatype CommitStatusParse = CommitStatusParse(refsName: Option<string>, kind: BuildKind, sha1: string, statusJson: Option<string>)

  predicate IsHexDigit(c: char) {
    ('0' <= c <= '9') || ('a' <= c <= 'f') || ('A' <= c <= 'F')
  }

  predicate IsHex(s: string) {
    forall i :: 0 <= i < |s| ==> IsHexDigit(s[i])
  }

  /** What the statusJson group matches: "/status", any character but a line
      terminator (the unescaped '.'), then "json". */
  predicate IsStatusJson(s: string) {
    |s| == 12 && s[..7] == "/status" && !IsLineTerminator(s[7]) && s[8..] == "json"
  }

  /** A parse the pattern can produce. */
  predicate WellFormed(p: CommitStatusParse) {
    && (p.refsName.Some? ==> IsPart(p.refsName.value))
    && p.sha1 != "" && IsHex(p.sha1)
    && (p.statusJson.Some? ==> IsStatusJson(p.statusJson.value))
  }

  /** The optional refs segment as it appears in the path. */
  function RefsPrefix(refsName: Option<string>): string {
    if refsName.Some? then "refs/" + refsName.value + "/" else ""
  }

  /** Everything before the sha1 group. */
  function Head(refsName: Option<string>, kind: BuildKind): string {
    RefsPrefix(refsName) + KindName(kind) + "/"
  }

  /** The path a parse describes. */
  function Render(p: CommitStatusParse): string {
    Head(p.refsName, p.kind) + p.sha1 + (if p.statusJson.Some? then p.statusJson.value else "")
  }

  /** The length of the longest all-hex prefix. */
  function HexRun(s: string): (n: nat)
    ensures n <= |s|
    ensures IsHex(s[..n])
    ensures n < |s| ==> !IsHexDigit(s[n])
  {
    if s == [] || !IsHexDigit(s[0]) then 0
    else
      var n := 1 + HexRun(s[1..]);
      assert forall i :: 1 <= i < n ==> s[..n][i] == s[1..][..n - 1][i - 1];
      n
  }

  /** The refs prefix, consumed when the path starts with "refs/": Some with
      the optional refs segment and the rest, None when no match is possible. */
  function StripRefs(s: string): Option<(Option<string>, string)> {
    if StartsWith(s, "refs/") then
      var rest := s[5..];
      var k := FirstSlash(rest);
      if k == 0 || k == |rest| then None else Some((Some(rest[..k]), rest[k + 1..]))
    else Some((None, s))
  }

  /** The word and the rest after its '/'. */
  function StripKind(t: string): Option<(BuildKind, string)> {
    if StartsWith(t, "commits/") then Some((Commits, t[8..]))
    else if StartsWith(t, "builds/") then Some((Builds, t[7..]))
    else None
  }

  /** The recogniser for the commit-status pattern under Matcher.matches: the
      hex run is taken whole, since what may follow it starts with '/' or is
      the end of the path. */
  function ParseCommitStatus(s: string): (r: Option<CommitStatusParse>)
  {
    match StripRefs(s)
    case None => None
    case Some((refsName, t)) =>
      match StripKind(t)
      case None => None
      case Some((kind, u)) =>
        var n := HexRun(u);
        var suffix := u[n..];
        if n == 0 then None
        else if suffix == "" then Some(CommitStatusParse(refsName, kind, u[..n], None))
        else if IsStatusJson(suffix) then Some(CommitStatusParse(refsName, kind, u[..n], Some(suffix)))
        else None
  }

  /** The refs step on a path that starts with the word: nothing to strip. */
  lemma StripRefsNoRefs(kind: BuildKind, x: string)
    ensures StripRefs(KindName(kind) + "/" + x) == Some((None, KindName(kind) + "/" + x))
  {
    var w := KindName(kind) + "/" + x;
    assert w[0] == KindName(kind)[0];
    assert !StartsWith(w, "refs/");
  }

  /** The refs step on a path that starts with "refs/", a part and '/'. */
  lemma StripRefsWithRefs(name: string, w: string)
    requires IsPart(name)
    ensures StripRefs("refs/" + name + "/" + w) == Some((Some(name), w))
  {
    var rest := name + ("/" + w);
    var s := "refs/" + rest;
    assert "refs/" + name + "/" + w == s;
    assert s[..5] == "refs/";
    assert s[5..] == rest;
    FirstSlashAfter(name, "/" + w);
    assert rest[..|name|] == name;
    assert rest[|name| + 1..] == w;
  }

  /** The refs step on a path with a well-formed head. */
  lemma StripRefsHead(refsName: Option<string>, kind: BuildKind, x: string)
    requires refsName.Some? ==> IsPart(refsName.value)
    ensures StripRefs(Head(refsName, kind) + x) == Some((refsName, KindName(kind) + "/" + x))
  {
    var w := KindName(kind) + "/" + x;
    match refsName
    case None =>
      assert Head(refsName, kind) + x == w;
      StripRefsNoRefs(kind, x);
    case Some(name) =>
      assert Head(refsName, kind) + x == "refs/" + name + "/" + w;
      StripRefsWithRefs(name, w);
  }

  /** The word step on a path that starts with a word and '/'. */
  lemma StripKindWord(kind: BuildKind, u: string)
    ensures StripKind(KindName(kind) + "/" + u) == Some((kind, u))
  {
    var w := KindName(kind) + "/" + u;
    match kind
    case Commits =>
      assert w[..8] == "commits/";
      assert w[8..] == u;
    case Builds =>
      assert w[0] == 'b';
      assert !StartsWith(w, "commits/");
      assert w[..7] == "builds/";
      assert w[7..] == u;
  }

  /** The hex run of a hex string followed by '/' or nothing is that string. */
  lemma {:induction false} HexRunOf(sha1: string, suffix: string)
    requires IsHex(sha1)
    requires suffix == "" || suffix[0] == '/'
    ensures HexRun(sha1 + suffix) == |sha1|
  {
    if sha1 == [] {
      assert sha1 + suffix == suffix;
    } else {
      assert (sha1 + suffix)[0] == sha1[0];
      assert (sha1 + suffix)[1..] == sha1[1..] + suffix;
      assert IsHex(sha1[1..]) by {
        assert forall i :: 0 <= i < |sha1| - 1 ==> sha1[1..][i] == sha1[i + 1];
      }
      HexRunOf(sha1[1..], suffix);
    }
  }

  /** The parse of a path with a well-formed head and sha1: decided by what
      follows the sha1 alone. */
  lemma ParseAfterHead(refsName: Option<string>, kind: BuildKind, sha1: string, suffix: string)
    requires refsName.Some? ==> IsPart(refsName.value)
    requires sha1 != "" && IsHex(sha1)
    requires suffix == "" || suffix[0] == '/'
    ensures ParseCommitStatus(Head(refsName, kind) + sha1 + suffix) ==
      if suffix == "" then Some(CommitStatusParse(refsName, kind, sha1, None))
      else if IsStatusJson(suffix) then Some(CommitStatusParse(refsName, kind, sha1, Some(suffix)))
      else None
  {
    var u := sha1 + suffix;
    assert Head(refsName, kind) + sha1 + suffix == Head(refsName, kind) + u;
    StripRefsHead(refsName, kind, u);
    StripKindWord(kind, u);
    HexRunOf(sha1, suffix);
    assert u[..|sha1|] == sha1;
    assert u[|sha1|..] == suffix;
  }

  /** What the refs step consumed. */
  lemma StripRefsInverse(s: string)
    requires StripRefs(s).Some?
    ensures var (refsName, t) := StripRefs(s).value;
      && (refsName.Some? ==> IsPart(refsName.value))
      && s == RefsPrefix(refsName) + t
  {
    if StartsWith(s, "refs/") {
      var rest := s[5..];
      var k := FirstSlash(rest);
      var name := rest[..k];
      assert forall j :: 0 <= j < |name| ==> name[j] == rest[j];
      assert rest == name + "/" + rest[k + 1..];
      assert s == s[..5] + rest;
    }
  }

  /** What the word step consumed. */
  lemma StripKindInverse(t: string)
    requires StripKind(t).Some?
    ensures var (kind, u) := StripKind(t).value;
      t == KindName(kind) + "/" + u
  {
    if StartsWith(t, "commits/") {
      assert t == t[..8] + t[8..];
    } else {
      assert t == t[..7] + t[7..];
    }
  }

  /** Every well-formed parse is recognised in the path it describes. */
  lemma ParseRender(p: CommitStatusParse)
    requires WellFormed(p)
    ensures ParseCommitStatus(Render(p)) == Some(p)
  {
    var suffix := if p.statusJson.Some? then p.statusJson.value else "";
    ParseAfterHead(p.refsName, p.kind, p.sha1, suffix);
  }

  /** A recognised path's parse, by the steps of the recogniser. */
  lemma ParseSteps(s: string)
    requires ParseCommitStatus(s).Some?
    ensures StripRefs(s).Some? && StripKind(StripRefs(s).value.1).Some?
    ensures var (refsName, t) := StripRefs(s).value;
      var (kind, u) := StripKind(t).value;
      var n := HexRun(u);
      && n > 0
      && (u[n..] == "" || IsStatusJson(u[n..]))
      && ParseCommitStatus(s) == Some(CommitStatusParse(refsName, kind, u[..n], if u[n..] == "" then None else Some(u[n..])))
  {
  }

  /** The path of a parse whose sha1 and statusJson groups split u at n. */
  lemma RenderSplit(refsName: Option<string>, kind: BuildKind, u: string, n: nat)
    requires n <= |u|
    ensures Render(CommitStatusParse(refsName, kind, u[..n], if u[n..] == "" then None else Some(u[n..])))
         == RefsPrefix(refsName) + (KindName(kind) + "/" + u)
  {
    var head := Head(refsName, kind);
    assert head + u[..n] + u[n..] == head + u by {
      assert u == u[..n] + u[n..];
    }
  }

  /** Every recognised path is the one its parse describes, and the parse is
      well-formed: together with ParseRender, the recogniser accepts exactly
      the paths of the pattern. */
  lemma RenderParse(s: string)
    requires ParseCommitStatus(s).Some?
    ensures WellFormed(ParseCommitStatus(s).value)
    ensures Render(ParseCommitStatus(s).value) == s
  {
    ParseSteps(s);
    StripRefsInverse(s);
    var (refsName, t) := StripRefs(s).value;
    StripKindInverse(t);
    var (kind, u) := StripKind(t).value;
    RenderSplit(refsName, kind, u, HexRun(u));
  }

  /** A line terminator where the pattern's '.' stands makes the path
      unrecognised. */
  lemma LineTerminatorInStatusJsonRejected(refsName: Option<string>, kind: BuildKind, sha1: string, c: char)
    requires refsName.Some? ==> IsPart(refsName.value)
    requires sha1 != "" && IsHex(sha1)
    requires IsLineTerminator(c)
    ensures ParseCommitStatus(Head(refsName, kind) + sha1 + ("/status" + [c] + "json")) == None
  {
    var suffix := "/status" + [c] + "json";
    assert suffix[7] == c;
    ParseAfterHead(refsName, kind, sha1, suffix);
  }

  // ---------------------------------------------------------------------------
  // Requests and actions

  /** The parts of a StaplerRequest the resolver reads. gitlabEvent is the
      X-Gitlab-Event header (None when absent); body is None when reading the
      input stream fails. */
  datatype Request = Request(
    httpMethod: string,
    restOfPath: string,
    parameters: map<string, string>,
    gitlabEvent: Option<string>,
    body: Option<string>)

  /** getParameter: null when the parameter is absent. */
  function Parameter(request: Request, name: string): (r: Option<string>)
    ensures r.Some? <==> name in request.parameters
    ensures r.Some? ==> r.value == request.parameters[name]
  {
    if name in request.parameters then Some(request.parameters[name]) else None
  }

  /** The eight actions the resolver builds; each carries its constructor's
      arguments. */
  datatype WebHookAction =
    | MergeRequestBuildAction(project: JenkinsItem, body: string)
    | PushBuildAction(project: JenkinsItem, body: string)
    | BranchBuildPageRedirectAction(project: JenkinsItem, ref: string)
    | BranchStatusPngAction(project: JenkinsItem, ref: string)
    | CommitStatusPngAction(project: JenkinsItem, sha1Parameter: Option<string>)
    | CommitBuildPageRedirectAction(project: JenkinsItem, sha1: string)
    | StatusJsonAction(project: JenkinsItem, sha1: string)
    | NoopAction

  /** How resolving can end without an action: an HTTP response raised, or a
      Java exception thrown. */
  datatype Abort = Respond(response: HttpResponse) | Throw(exception: JavaException)

  const StatusPng := "status.png"

  /** onGetCommitStatus: the redirect without the statusJson group, the status
      JSON with it. */
  function OnGetCommitStatus(project: JenkinsItem, sha1: string, statusJson: Option<string>): (a: WebHookAction)
    ensures statusJson.None? <==> a == CommitBuildPageRedirectAction(project, sha1)
    ensures statusJson.Some? <==> a == StatusJsonAction(project, sha1)
  {
    if statusJson.None? then CommitBuildPageRedirectAction(project, sha1) else StatusJsonAction(project, sha1)
  }

  /** onGetStatusPng: the branch badge when a ref is given, else the commit
      badge for the sha1 parameter (possibly null). */
  function OnGetStatusPng(project: JenkinsItem, request: Request): (a: WebHookAction)
    ensures "ref" in request.parameters <==> a.BranchStatusPngAction?
    ensures "ref" in request.parameters ==> a == BranchStatusPngAction(project, request.parameters["ref"])
    ensures "ref" !in request.parameters ==> a == CommitStatusPngAction(project, Parameter(request, "sha1"))
  {
    if "ref" in request.parameters then BranchStatusPngAction(project, request.parameters["ref"])
    else CommitStatusPngAction(project, Parameter(request, "sha1"))
  }

  /** onGet: the branch redirect, the badges, the commit pattern, in that order. */
  function OnGet(project: JenkinsItem, restOfPath: string, request: Request): (a: WebHookAction)
  {
    if restOfPath == "" && "ref" in request.parameters then BranchBuildPageRedirectAction(project, request.parameters["ref"])
    else if EndsWith(restOfPath, StatusPng) then OnGetStatusPng(project, request)
    else
      match ParseCommitStatus(restOfPath)
      case Some(p) => OnGetCommitStatus(project, p.sha1, p.statusJson)
      case None => NoopAction
  }

  /** onPost: the body is read first, then the event header is compared; a
      missing header throws. */
  function OnPost(project: JenkinsItem, request: Request): (r: Result<WebHookAction, Abort>)
  {
    match request.body
    case None => Failure(Respond(Error(500, Text("Failed to read request body"))))
    case Some(body) =>
      match request.gitlabEvent
      case None => Failure(Throw(NullPointerException))
      case Some(event) =>
        if event == "Merge Request Hook" then Success(MergeRequestBuildAction(project, body))
        else if event == "Push Hook" then Success(PushBuildAction(project, body))
        else Success(NoopAction)
  }

  /** resolveAction: POST and GET, anything else is a no-op. */
  function ResolveAction(project: JenkinsItem, restOfPath: string, request: Request): (r: Result<WebHookAction, Abort>)
  {
    if request.httpMethod == "POST" then OnPost(project, request)
    else if request.httpMethod == "GET" then Success(OnGet(project, restOfPath, request))
    else Success(NoopAction)
  }

  /** resolve: split the rest of the path, find the project (404 when there is
      none), then choose the action on the re-joined remaining parts. */
  method Resolve(jenkins: Option<ItemLookup>, projectName: string, request: Request)
    returns (r: Result<WebHookAction, Abort>)
    ensures var parts := Split(request.restOfPath);
      var found := ResolvedProject(jenkins, projectName, parts);
      && (found.item.None? ==> r == Failure(Respond(NotFound)))
      && (found.item.Some? ==> r == ResolveAction(found.item.value, Join(parts[found.next..]), request))
  {
    var parts := Split(request.restOfPath);
    var project, next := ResolveProject(jenkins, projectName, parts);
    if project.None? {
      return Failure(Respond(NotFound));
    }
    r := ResolveAction(project.value, Join(parts[next..]), request);
  }

  // ---------------------------------------------------------------------------
  // The decision table

  /** A method other than POST or GET is a no-op, whatever else the request holds. */
  lemma OtherMethodsAreNoop(project: JenkinsItem, restOfPath: string, request: Request)
    requires request.httpMethod != "POST" && request.httpMethod != "GET"
    ensures ResolveAction(project, restOfPath, request) == Success(NoopAction)
  {
  }

  /** In a GET, an empty path with a ref is the branch redirect, before any other rule. */
  lemma BranchRedirectComesFirst(project: JenkinsItem, request: Request)
    requires "ref" in request.parameters
    ensures OnGet(project, "", request) == BranchBuildPageRedirectAction(project, request.parameters["ref"])
  {
  }

  /** In a GET, a path ending in "status.png" is a badge, chosen by the ref parameter. */
  lemma StatusPngPath(project: JenkinsItem, restOfPath: string, request: Request)
    requires EndsWith(restOfPath, StatusPng)
    ensures OnGet(project, restOfPath, request) == OnGetStatusPng(project, request)
  {
  }

  /** In a GET, a path of the commit pattern gives the redirect to the commit's
      build, or its status JSON when the suffix is there. */
  lemma CommitPatternPath(project: JenkinsItem, p: CommitStatusParse, request: Request)
    requires WellFormed(p)
    ensures OnGet(project, Render(p), request) ==
      if p.statusJson.None? then CommitBuildPageRedirectAction(project, p.sha1) else StatusJsonAction(project, p.sha1)
  {
    ParseRender(p);
    var s := Render(p);
    var last := s[|s| - 1];
    if p.statusJson.Some? {
      assert last == p.statusJson.value[11] == 'n';
    } else {
      assert last == p.sha1[|p.sha1| - 1];
    }
    assert StatusPng[9] == 'g';
    assert !EndsWith(s, StatusPng);
  }

  /** Any other GET is a no-op, and a GET is a no-op only then. */
  lemma OtherGetsAreNoop(project: JenkinsItem, restOfPath: string, request: Request)
    ensures OnGet(project, restOfPath, request) == NoopAction <==>
      && !(restOfPath == "" && "ref" in request.parameters)
      && !EndsWith(restOfPath, StatusPng)
      && ParseCommitStatus(restOfPath).None?
  {
  }

  /** A POST: an unreadable body is a 500 whatever the header; with a body, a
      missing header throws, and the two known events give their build
      actions with that body. */
  lemma PostCases(project: JenkinsItem, request: Request)
    requires request.httpMethod == "POST"
    ensures request.body.None? ==> ResolveAction(project, "", request) == Failure(Respond(Error(500, Text("Failed to read request body"))))
    ensures request.body.Some? && request.gitlabEvent.None? ==> ResolveAction(project, "", request) == Failure(Throw(NullPointerException))
    ensures request.body.Some? && request.gitlabEvent == Some("Merge Request Hook") ==>
      ResolveAction(project, "", request) == Success(MergeRequestBuildAction(project, request.body.value))
    ensures request.body.Some? && request.gitlabEvent == Some("Push Hook") ==>
      ResolveAction(project, "", request) == Success(PushBuildAction(project, request.body.value))
    ensures request.body.Some? && request.gitlabEvent.Some? ==>
      request.gitlabEvent.value != "Merge Request Hook" && request.gitlabEvent.value != "Push Hook" ==>
      ResolveAction(project, "", request) == Success(NoopAction)
  {
  }

  /** The path does not matter to a POST. */
  lemma PostIgnoresPath(project: JenkinsItem, path1: string, path2: string, request: Request)
    requires request.httpMethod == "POST"
    ensures ResolveAction(project, path1, request) == ResolveAction(project, path2, request)
  {
  }
}

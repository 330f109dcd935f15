/** PushBuildAction: the namespace backfill of a push hook and the hand-off
    to the job's trigger. */
module PushBuild {
  import opened Wrappers
  import opened JavaStrings
  import opened Jenkins
  import opened HookModel
  import opened GitLabTrigger
  import opened BuildWebHook

  /** The namespace derived from a URL path: the path with its first '/'
      removed, cut to the length of the original path's last '/' index. A path
      without '/' makes that index -1 and the substring throws. */
  function Namespace(path: string): (r: Result<string, JavaException>)
    ensures r.Success? <==> '/' in path
    ensures r.Failure? ==> r.error == StringIndexOutOfBoundsException
  {
    var k := LastIndexOf(path, "/");
    assert '/' in path ==> k >= 0 by {
      if '/' in path {
        var j :| 0 <= j < |path| && path[j] == '/';
        assert OccursAt(path, "/", j);
      }
    }
    assert k >= 0 ==> '/' in path by {
      if k >= 0 {
        assert OccursAt(path, "/", k);
        assert path[k] == '/';
      }
    }
    Substring(RemoveFirst(path, '/'), 0, k)
  }

  /** The project the backfill creates: only its namespace is set. */
  function ProjectWithNamespace(namespace: string): (p: Project)
    ensures p.namespace == Some(namespace)
    ensures p.url.None? && p.homepage.None? && p.httpUrl.None?
  {
    Project(Some(namespace), None, None, None)
  }

  /** new URL(spec).getPath(): the path of a well-formed URL, None when the
      constructor throws MalformedURLException. URL parsing is not part of
      this model. */
  type UrlPath = string -> Option<string>

  /** The path of the repository's gitHttpUrl; a null URL is malformed. */
  function GitHttpUrlPath(repository: Repository, urlPath: UrlPath): (r: Option<string>)
    ensures repository.gitHttpUrl.None? ==> r.None?
    ensures repository.gitHttpUrl.Some? ==> r == urlPath(repository.gitHttpUrl.value)
  {
    if repository.gitHttpUrl.None? then None else urlPath(repository.gitHttpUrl.value)
  }

  /** The specification of processForCompatibility on the hook's project. The
      second component is the exception that escapes, if any; a
      MalformedURLException is caught and escapes as nothing. */
  function PushCompat(project: Option<Project>, repository: Option<Repository>, urlPath: UrlPath): (r: (Option<Project>, Option<JavaException>))
  {
    if project.None? && repository.Some? then
      var path := GitHttpUrlPath(repository.value, urlPath);
      if path.Some? && !IsBlank(path) then
        match Namespace(path.value)
        case Success(namespace) => (Some(ProjectWithNamespace(namespace)), None)
        case Failure(e) => (project, Some(e))
      else (project, None)
    else (project, None)
  }

  /** A project already set, or no repository, means nothing changes. */
  lemma ProjectOrRepositoryMissingUnchanged(project: Option<Project>, repository: Option<Repository>, urlPath: UrlPath)
    requires project.Some? || repository.None?
    ensures PushCompat(project, repository, urlPath) == (project, None)
  {
  }

  /** A malformed URL (a null gitHttpUrl among them) or a blank path sets no
      project and lets nothing escape. */
  lemma MalformedOrBlankPathUnchanged(repository: Repository, urlPath: UrlPath)
    requires GitHttpUrlPath(repository, urlPath).None? || IsBlank(GitHttpUrlPath(repository, urlPath))
    ensures PushCompat(None, Some(repository), urlPath) == (None, None)
  {
  }

  /** A repository without a gitHttpUrl never gets a project, whatever the
      URL parser does. */
  lemma NullGitHttpUrlUnchanged(repository: Repository, urlPath: UrlPath)
    requires repository.gitHttpUrl.None?
    ensures PushCompat(None, Some(repository), urlPath) == (None, None)
  {
    MalformedOrBlankPathUnchanged(repository, urlPath);
  }

  /** For a non-blank path: one containing '/' always gets a project with only
      the derived namespace set; one without '/' throws
      StringIndexOutOfBoundsException and leaves the project null. */
  lemma NamespaceBackfill(repository: Repository, urlPath: UrlPath, path: string)
    requires GitHttpUrlPath(repository, urlPath) == Some(path) && !IsBlank(Some(path))
    ensures '/' in path ==>
      PushCompat(None, Some(repository), urlPath) == (Some(ProjectWithNamespace(Namespace(path).value)), None)
    ensures '/' !in path ==>
      PushCompat(None, Some(repository), urlPath) == (None, Some(StringIndexOutOfBoundsException))
  {
  }

  /** A path that starts with '/' (as URL paths do) gives the path's
      characters from index 1 up to and including its last '/': a path whose
      last '/' is not the leading one keeps that slash at the namespace's end. */
  lemma {:induction false} NamespaceOfAbsolutePath(path: string)
    requires |path| > 0 && path[0] == '/'
    ensures var k := LastIndexOf(path, "/");
      && k >= 0
      && Namespace(path) == Success(path[1..k + 1])
      && (k > 0 ==> EndsWith(Namespace(path).value, "/"))
  {
    assert OccursAt(path, "/", 0);
    var k := LastIndexOf(path, "/");
    assert RemoveFirst(path, '/') == path[1..];
    assert OccursAt(path, "/", k);
    assert path[k] == '/';
    assert Substring(path[1..], 0, k) == Success(path[1..][0..k]);
    assert path[1..][0..k] == path[1..k + 1];
  }

  /** The last '/' of "/group/project.git" is at index 6. */
  lemma GroupProjectLastSlash()
    ensures LastIndexOf("/group/project.git", "/") == 6
  {
    var p := "/group/project.git";
    assert OccursAt(p, "/", 6);
    forall j | 6 < j <= |p|
      ensures !OccursAt(p, "/", j)
    {
      assert j == |p| || p[j] != '/';
    }
  }

  /** The path "/group/project.git" gives the namespace "group/". */
  lemma GroupProjectExample()
    ensures Namespace("/group/project.git") == Success("group/")
  {
    var p := "/group/project.git";
    NamespaceOfAbsolutePath(p);
    GroupProjectLastSlash();
    assert p[1..7] == "group/";
  }

  /** PushBuildAction: the job and the parsed hook. */
  class PushBuildAction {
    const project: JobView
    const pushHook: PushHook

    /** The JSON body is given already parsed into the hook. */
    constructor (project: JobView, pushHook: PushHook)
      ensures this.project == project && this.pushHook == pushHook
    {
      this.project := project;
      this.pushHook := pushHook;
    }

    /** processForCompatibility: fills in a missing project from the
        repository's URL path. */
    method ProcessForCompatibility(urlPath: UrlPath) returns (failure: Option<JavaException>)
      modifies pushHook`project
      ensures (pushHook.project, failure) == PushCompat(old(pushHook.project), pushHook.repository, urlPath)
    {
      failure := None;
      if pushHook.project.None? && pushHook.repository.Some? {
        var path := GitHttpUrlPath(pushHook.repository.value, urlPath);
        if path.Some? && !IsBlank(path) {
          var namespace := Namespace(path.value);
          if namespace.Failure? {
            return Some(namespace.error);
          }
          pushHook.SetProject(Some(ProjectWithNamespace(namespace.value)));
        }
      }
    }

    /** The specification of execute: a repository without a url returns at
        once; otherwise onPost goes to the trigger getFromJob finds, if any,
        and the OK response is raised. No token or permission is checked. */
    function ExecuteOutcome(): (r: Outcome)
      reads pushHook
      ensures r.completion == Returned <==> pushHook.repository.Some? && pushHook.repository.value.url.None?
      ensures r.completion != Returned ==> r.completion == Raised(Ok) && r.delivered == FoundTrigger(project)
      ensures r.completion == Returned ==> r.delivered.None?
    {
      if pushHook.repository.Some? && pushHook.repository.value.url.None? then Outcome(None, Returned)
      else Outcome(FoundTrigger(project), Raised(Ok))
    }

    /** execute. */
    method Execute() returns (outcome: Outcome)
      ensures outcome == ExecuteOutcome()
    {
      if pushHook.repository.Some? && pushHook.repository.value.url.None? {
        return Outcome(None, Returned);
      }
      var trigger := GetFromJob(project.isParameterizedJob, project.triggers);
      outcome := Outcome(trigger, Raised(Ok));
    }

    /** execute(response): the backfill first, then execute; an exception in
        the backfill ends the action before execute. */
    method ExecuteResponse(urlPath: UrlPath) returns (outcome: Outcome)
      modifies pushHook`project
      ensures var c := PushCompat(old(pushHook.project), pushHook.repository, urlPath);
        && pushHook.project == c.0
        && (c.1.Some? ==> outcome == Outcome(None, Threw(c.1.value)))
        && (c.1.None? ==> outcome == ExecuteOutcome())
    {
      var failure := ProcessForCompatibility(urlPath);
      if failure.Some? {
        return Outcome(None, Threw(failure.value));
      }
      outcome := Execute();
    }
  }
}

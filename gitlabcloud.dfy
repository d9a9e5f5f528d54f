/**
 * The GitLab wrapper's lookups by name and its paginated listings. The API
 * is abstracted as the answers it gives to the successive page requests.
 */
module GitlabCloud {
  import opened Wrappers

  datatype Group = Group(ID: int, Name: string)
  datatype Project = Project(ID: int, Name: string)

  /** One page request's answer: an error, or the items and the NextPage header (0 after the last page). */
  datatype PageAnswer<T> = PageFailed(error: string) | Page(items: seq<T>, NextPage: int)

  /** The answer that ends the listing loop: an error, or a page after which no page is requested. */
  predicate Stops<T>(a: PageAnswer<T>) {
    a.PageFailed? || a.NextPage <= 0
  }

  /** The position of the answer that ends the loop, if the answers ever end it. */
  function StopAt<T>(answers: seq<PageAnswer<T>>): (r: Option<nat>)
    ensures r.Some? ==> r.value < |answers| && Stops(answers[r.value])
    ensures r.Some? ==> forall j :: 0 <= j < r.value ==> !Stops(answers[j])
    ensures r.None? ==> forall j :: 0 <= j < |answers| ==> !Stops(answers[j])
    decreases |answers|
  {
    if |answers| == 0 then None
    else if Stops(answers[0]) then Some(0)
    else match StopAt(answers[1..])
      case None => None
      case Some(i) => Some(i + 1)
  }

  /** The items of the first `n` answers, page after page. */
  function Pages<T>(answers: seq<PageAnswer<T>>, n: nat): seq<T>
    requires n <= |answers| && forall j :: 0 <= j < n ==> answers[j].Page?
  {
    if n == 0 then [] else Pages(answers, n - 1) + answers[n - 1].items
  }

  /** An item is listed exactly when it is on one of the pages read. */
  lemma {:induction false} PagesMember<T>(answers: seq<PageAnswer<T>>, n: nat, x: T)
    requires n <= |answers| && forall j :: 0 <= j < n ==> answers[j].Page?
    ensures x in Pages(answers, n) <==> exists j :: 0 <= j < n && x in answers[j].items
  {
    if n > 0 {
      PagesMember(answers, n - 1, x);
      if x in answers[n - 1].items {
        assert x in Pages(answers, n);
      }
    }
  }

  /** What a listing returns: the first error, or every page's items up to the last page. */
  function Collected<T>(answers: seq<PageAnswer<T>>): Result<seq<T>>
    requires StopAt(answers).Some?
  {
    var k := StopAt(answers).value;
    match answers[k]
    case PageFailed(e) => Err(e)
    case Page(_, _) => Ok(Pages(answers, k + 1))
  }

  /**
   * The loop of GetGroups, GetProjects, GetSubGroups and GetSubGroupID: page
   * 1 is requested first and each later request asks for the NextPage the
   * previous answer gave, until it is 0 or a request fails. `requested`
   * gives the page numbers asked for, in order.
   */
  method CollectPages<T>(answers: seq<PageAnswer<T>>) returns (container: Result<seq<T>>, requested: seq<int>)
    requires StopAt(answers).Some?
    ensures container == Collected(answers)
    ensures |requested| == StopAt(answers).value + 1 && requested[0] == 1
    ensures forall i :: 0 < i < |requested| ==> answers[i - 1].Page? && requested[i] == answers[i - 1].NextPage
    ensures forall i :: 0 <= i < |requested| ==> requested[i] > 0
  {
    ghost var k := StopAt(answers).value;
    var items: seq<T> := [];
    var nextPage := 1;
    var i := 0;
    requested := [];
    while nextPage > 0
      invariant i <= k + 1 && (nextPage > 0 <==> i <= k)
      invariant forall j :: 0 <= j < i ==> answers[j].Page?
      invariant items == Pages(answers, i)
      invariant |requested| == i && (i > 0 ==> requested[0] == 1)
      invariant forall j :: 0 < j < i ==> requested[j] == answers[j - 1].NextPage
      invariant forall j :: 0 <= j < i ==> requested[j] > 0
      invariant nextPage == if i == 0 then 1 else answers[i - 1].NextPage
      decreases k + 1 - i
    {
      requested := requested + [nextPage];
      match answers[i] {
        case PageFailed(e) =>
          return Err(e), requested;
        case Page(page, next) =>
          items := items + page;
          nextPage := next;
      }
      i := i + 1;
    }
    return Ok(items), requested;
  }

  /** The answers are only read up to the one that ends the loop. */
  lemma CollectedIgnoresLaterAnswers<T>(answers: seq<PageAnswer<T>>, more: seq<PageAnswer<T>>)
    requires StopAt(answers).Some?
    ensures StopAt(answers + more) == StopAt(answers)
    ensures Collected(answers + more) == Collected(answers)
  {
    var k := StopAt(answers).value;
    assert (answers + more)[k] == answers[k];
    assert forall j :: 0 <= j < k ==> (answers + more)[j] == answers[j];
    if answers[k].Page? {
      PagesPrefix(answers, more, k + 1);
    }
  }

  lemma {:induction false} PagesPrefix<T>(answers: seq<PageAnswer<T>>, more: seq<PageAnswer<T>>, n: nat)
    requires n <= |answers| && forall j :: 0 <= j < n ==> answers[j].Page?
    ensures Pages(answers + more, n) == Pages(answers, n)
  {
    if n > 0 {
      PagesPrefix(answers, more, n - 1);
      assert (answers + more)[n - 1] == answers[n - 1];
    }
  }

  /** The position of the first group with the name. */
  function FirstNamed(groups: seq<Group>, name: string): (r: Option<nat>)
    ensures r.Some? ==> r.value < |groups| && groups[r.value].Name == name
    ensures r.Some? ==> forall j :: 0 <= j < r.value ==> groups[j].Name != name
    ensures r.None? ==> forall j :: 0 <= j < |groups| ==> groups[j].Name != name
    decreases |groups|
  {
    if |groups| == 0 then None
    else if groups[0].Name == name then Some(0)
    else match FirstNamed(groups[1..], name)
      case None => None
      case Some(i) => Some(i + 1)
  }

  /** GetGroupID: the ID of the first group named exactly `groupName`, else 0 and an error. */
  method GetGroupID(groups: seq<Group>, groupName: string) returns (id: int, err: Option<string>)
    ensures FirstNamed(groups, groupName).Some? ==>
      id == groups[FirstNamed(groups, groupName).value].ID && err == None
    ensures FirstNamed(groups, groupName).None? ==>
      id == 0 && err == Some("group " + groupName + " not found")
  {
    for i := 0 to |groups|
      invariant forall j :: 0 <= j < i ==> groups[j].Name != groupName
    {
      if groups[i].Name == groupName {
        return groups[i].ID, None;
      }
    }
    return 0, Some("group " + groupName + " not found");
  }

  /**
   * GetSubGroupID after its listing: a failed page request is returned with
   * ID 0; otherwise the first listed subgroup with the name, else 0 and an
   * error.
   */
  method GetSubGroupID(answers: seq<PageAnswer<Group>>, subGroupName: string) returns (id: int, err: Option<string>)
    requires StopAt(answers).Some?
    ensures Collected(answers).Err? ==> id == 0 && err == Some(Collected(answers).error)
    ensures Collected(answers).Ok? ==>
      var container := Collected(answers).value;
      (FirstNamed(container, subGroupName).Some? ==>
        id == container[FirstNamed(container, subGroupName).value].ID && err == None) &&
      (FirstNamed(container, subGroupName).None? ==>
        id == 0 && err == Some("subgroup " + subGroupName + " not found"))
  {
    var collected, _ := CollectPages(answers);
    if collected.Err? {
      return 0, Some(collected.error);
    }
    var container := collected.value;
    for i := 0 to |container|
      invariant forall j :: 0 <= j < i ==> container[j].Name != subGroupName
    {
      if container[i].Name == subGroupName {
        return container[i].ID, None;
      }
    }
    return 0, Some("subgroup " + subGroupName + " not found");
  }

  /**
   * A listing that succeeds finds a subgroup by name exactly when one of the
   * pages read holds a subgroup with that name.
   */
  lemma SubGroupFound(answers: seq<PageAnswer<Group>>, subGroupName: string)
    requires StopAt(answers).Some? && Collected(answers).Ok?
    ensures FirstNamed(Collected(answers).value, subGroupName).Some? <==>
      exists j, g :: 0 <= j <= StopAt(answers).value && g in answers[j].items && g.Name == subGroupName
  {
    var k := StopAt(answers).value;
    var container := Collected(answers).value;
    if i :| 0 <= i < |container| && container[i].Name == subGroupName {
      PagesMember(answers, k + 1, container[i]);
    }
    if j, g :| 0 <= j <= k && g in answers[j].items && g.Name == subGroupName {
      PagesMember(answers, k + 1, g);
    }
  }

  /** FindProjectInGroup: true exactly when some project has the name; otherwise an error. */
  method FindProjectInGroup(projects: seq<Project>, projectName: string) returns (found: bool, err: Option<string>)
    ensures found <==> exists j :: 0 <= j < |projects| && projects[j].Name == projectName
    ensures found ==> err == None
    ensures !found ==> err == Some("project " + projectName + " not found")
  {
    for i := 0 to |projects|
      invariant forall j :: 0 <= j < i ==> projects[j].Name != projectName
    {
      if projects[i].Name == projectName {
        return true, None;
      }
    }
    return false, Some("project " + projectName + " not found");
  }
}

/** The team assignment server (assign.js): the page listing for its form and
    the `POST /clone` handler that renames a page and then grants a team edit
    access to it. */
module Assign {
  import opened Js
  import opened HubSpot

  const MissingFieldsMessage := "Please select both a page and a team"
  const GrantErrorMessage := "Error granting edit access to the team"
  /** The answer of the handler's outer catch, which nothing reaches. */
  const RequestErrorMessage := "Error processing your request"

  /** A form field as `!field` tests it: present and not empty. */
  predicate Given(field: Option<string>)
    ensures Given(field) ==> field.Some? && |field.value| > 0
    ensures field == None || field == Some("") ==> !Given(field)
    ensures Given(field) <==> field.Some? && Truthy(Str(field.value))
  {
    field.Some? && field.value != ""
  }

  /** The page update that claims the page for the team. */
  function TeamPatch(teamId: string): (patch: PagePatch)
    ensures patch.metaDescription == "Team Access Updated"
    ensures |patch.name| == 20 + |teamId|
    ensures patch.name[..20] == "Landing Page - Team " && patch.name[20..] == teamId
  {
    PagePatch(metaDescription := "Team Access Updated", name := "Landing Page - Team " + teamId)
  }

  /** The permission granted to the team. */
  const EditContent := Grant(role := "EDIT_CONTENT")

  /** `fetchLandingPages()`: the pages, or `[]` when the request fails or the
      body has no `results`. */
  method FetchLandingPages(client: Client) returns (pages: seq<Page>)
    modifies client
    ensures client.log == old(client.log) + [GetLandingPages(PageListLimit)]
    ensures client.server.pages.Err? ==> pages == []
    ensures client.server.pages.Ok? ==>
      pages == match client.server.pages.data.results
               case Some(results) => results
               case None => []
  {
    var response := client.ListLandingPages();
    pages := ResultsOrEmpty(response);
  }

  datatype View = PlainText(text: string) | AssignedView(editUrl: string)

  datatype Response = Response(status: nat, view: View)

  /** A handled request: the answer and the remote calls, in order. */
  datatype Trace = Trace(response: Response, calls: seq<Call>)

  /** What `POST /clone` does with the submitted `pageId` and `teamId`. */
  function AssignRun(server: Server, cfg: Config, pageId: Option<string>, teamId: Option<string>): (t: Trace)
    // validation: a missing or empty field makes no call at all
    ensures t.response.status == 400 <==> !(Given(pageId) && Given(teamId))
    ensures t.response.status == 400 ==>
      t.calls == [] && t.response.view == PlainText(MissingFieldsMessage)
    ensures t.response.status in {200, 400, 500}
    // the update comes first, once; the grant follows, once, and only after it
    ensures t.response.status != 400 ==>
      && 1 <= |t.calls| <= 2
      && t.calls[0] == PatchLandingPage(pageId.value, TeamPatch(teamId.value))
    ensures |t.calls| == 2 ==>
      && t.calls[1] == PostTeamPermission(teamId.value, pageId.value, EditContent)
      && server.update(pageId.value, TeamPatch(teamId.value)).Ok?
    ensures |t.calls| == 1 ==> server.update(pageId.value, TeamPatch(teamId.value)).Err?
    // either failure gives the same answer, and nothing is undone
    ensures t.response.status == 500 <==>
      && Given(pageId) && Given(teamId)
      && (|| server.update(pageId.value, TeamPatch(teamId.value)).Err?
          || server.grant(teamId.value, pageId.value, EditContent).Err?)
    ensures t.response.status == 500 ==> t.response.view == PlainText(GrantErrorMessage)
    ensures forall i :: 0 <= i < |t.calls| && t.calls[i].PatchLandingPage? ==> i == 0
    // success
    ensures t.response.status == 200 ==>
      && |t.calls| == 2
      && t.response.view == AssignedView(EditUrl(cfg.portalId, pageId.value))
    ensures t.response.view != PlainText(RequestErrorMessage)
  {
    if !(Given(pageId) && Given(teamId)) then
      Trace(Response(400, PlainText(MissingFieldsMessage)), [])
    else
      var patch := TeamPatch(teamId.value);
      var update := PatchLandingPage(pageId.value, patch);
      if server.update(pageId.value, patch).Err? then
        Trace(Response(500, PlainText(GrantErrorMessage)), [update])
      else
        var calls := [update, PostTeamPermission(teamId.value, pageId.value, EditContent)];
        if server.grant(teamId.value, pageId.value, EditContent).Err? then
          Trace(Response(500, PlainText(GrantErrorMessage)), calls)
        else
          Trace(Response(200, AssignedView(EditUrl(cfg.portalId, pageId.value))), calls)
  }

  /** The `POST /clone` handler over a recording client. */
  method AssignTeam(client: Client, cfg: Config, pageId: Option<string>, teamId: Option<string>)
    returns (res: Response)
    modifies client
    ensures client.log == old(client.log) + AssignRun(client.server, cfg, pageId, teamId).calls
    ensures res == AssignRun(client.server, cfg, pageId, teamId).response
  {
    if !(Given(pageId) && Given(teamId)) {
      return Response(400, PlainText(MissingFieldsMessage));
    }
    var updated := client.UpdateLandingPage(pageId.value, TeamPatch(teamId.value));
    if updated.Err? {
      return Response(500, PlainText(GrantErrorMessage));
    }
    var granted := client.GrantTeamPermission(teamId.value, pageId.value, EditContent);
    if granted.Err? {
      return Response(500, PlainText(GrantErrorMessage));
    }
    var editUrl := EditUrl(cfg.portalId, pageId.value);
    res := Response(200, AssignedView(editUrl));
  }

  /** A refused grant after an accepted update leaves the page renamed: the
      log holds that one update and the refused grant, and no compensating
      call. */
  lemma GrantFailureIsNotRolledBack(server: Server, cfg: Config, pageId: string, teamId: string)
    requires pageId != "" && teamId != ""
    requires server.update(pageId, TeamPatch(teamId)).Ok?
    requires server.grant(teamId, pageId, EditContent).Err?
    ensures var t := AssignRun(server, cfg, Some(pageId), Some(teamId));
      && t.response == Response(500, PlainText(GrantErrorMessage))
      && t.calls == [PatchLandingPage(pageId, TeamPatch(teamId)), PostTeamPermission(teamId, pageId, EditContent)]
  {
  }

  /** The answer does not tell which of the two calls failed. */
  lemma FailureHidesStep(s1: Server, s2: Server, cfg: Config, pageId: string, teamId: string)
    requires pageId != "" && teamId != ""
    requires s1.update(pageId, TeamPatch(teamId)).Err?
    requires s2.update(pageId, TeamPatch(teamId)).Ok? && s2.grant(teamId, pageId, EditContent).Err?
    ensures AssignRun(s1, cfg, Some(pageId), Some(teamId)).response
         == AssignRun(s2, cfg, Some(pageId), Some(teamId)).response
  {
  }
}

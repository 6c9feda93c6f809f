/** The page creation server (index.js): the user check, the listing
    helpers, the payload built from a template page, and the `POST /clone`
    handler that chains them. */
module Index {
  import opened Js
  import opened Slug
  import opened HubSpot

  // ----- User lookup ------------------------------------------------------

  /** `{exists: true, userId}` or `{exists: false}`. */
  datatype UserCheck = Found(userId: string) | NotFound

  /** `users.find(user => user.email === email)`, as an index: the first user
      whose email is exactly `email`. */
  function FindUser(users: seq<User>, email: string): (r: Option<nat>)
    ensures r.Some? ==> r.value < |users| && users[r.value].email == email
    ensures r.Some? ==> forall j :: 0 <= j < r.value ==> users[j].email != email
    ensures r.None? ==> forall j :: 0 <= j < |users| ==> users[j].email != email
  {
    if users == [] then None
    else if users[0].email == email then Some(0)
    else
      match FindUser(users[1..], email)
      case None => None
      case Some(i) => Some(i + 1)
  }

  /** What `checkUserExists` concludes from the user list reply. A failed
      request, a body without `results` (on which `.find` throws) and a list
      without the email all give the same `NotFound`. */
  function UserLookup(reply: Outcome<Listing<User>>, email: string): (r: UserCheck)
    ensures r.Found? <==>
      && reply.Ok? && reply.data.results.Some?
      && exists j :: 0 <= j < |reply.data.results.value| && reply.data.results.value[j].email == email
    ensures r.Found? ==>
      var users := reply.data.results.value;
      exists j :: 0 <= j < |users| && users[j].email == email && users[j].id == r.userId
        && forall k :: 0 <= k < j ==> users[k].email != email
    ensures reply.Err? ==> r == NotFound
  {
    if reply.Err? || reply.data.results.None? then NotFound
    else
      match FindUser(reply.data.results.value, email)
      case Some(i) => Found(reply.data.results.value[i].id)
      case None => NotFound
  }

  /** `checkUserExists(email)`: one request for the user list. */
  method CheckUserExists(client: Client, email: string) returns (r: UserCheck)
    modifies client
    ensures client.log == old(client.log) + [GetUsers]
    ensures r == UserLookup(client.server.users, email)
  {
    var response := client.ListUsers();
    if response.Err? || response.data.results.None? {
      return NotFound;
    }
    var found := FindUser(response.data.results.value, email);
    if found.Some? {
      r := Found(response.data.results.value[found.value].id);
    } else {
      r := NotFound;
    }
  }

  // ----- Listings for the form ---------------------------------------------

  /** `fetchHubSpotTeams()`: the teams, or `[]` when the request fails or the
      body has no `results`. */
  method FetchHubSpotTeams(client: Client) returns (teams: seq<Team>)
    modifies client
    ensures client.log == old(client.log) + [GetTeams]
    ensures client.server.teams.Err? ==> teams == []
    ensures client.server.teams.Ok? ==>
      teams == match client.server.teams.data.results
               case Some(results) => results
               case None => []
  {
    var response := client.ListTeams();
    teams := ResultsOrEmpty(response);
  }

  /** `fetchLandingPageTemplates()`: no request at all when a default template
      is configured; otherwise the first page of landing pages, whose missing
      `results` comes back as undefined (`None`), and `[]` on failure. */
  method FetchLandingPageTemplates(client: Client, cfg: Config) returns (templates: Option<seq<Page>>)
    modifies client
    ensures HasDefaultTemplate(cfg) ==> client.log == old(client.log) && templates == Some([])
    ensures !HasDefaultTemplate(cfg) ==> client.log == old(client.log) + [GetLandingPages(PageListLimit)]
    ensures !HasDefaultTemplate(cfg) && client.server.pages.Err? ==> templates == Some([])
    ensures !HasDefaultTemplate(cfg) && client.server.pages.Ok? ==>
      templates == client.server.pages.data.results
  {
    if HasDefaultTemplate(cfg) {
      return Some([]);
    }
    var response := client.ListLandingPages();
    if response.Err? {
      return Some([]);
    }
    templates := response.data.results;
  }

  // ----- The new page ----------------------------------------------------

  /** `slug` matches `^student-<slugName>-\d+$`, its digits have no leading
      zero (other than a lone `0`) and they read `ts`. */
  predicate SlugPattern(slug: string, slugName: string, ts: nat) {
    var n := 9 + |slugName|;
    && |slug| > n
    && slug[..8] == "student-"
    && slug[8..n - 1] == slugName
    && slug[n - 1] == '-'
    && AllDigits(slug[n..])
    && (slug[n] == '0' ==> |slug| == n + 1)
    && DecimalValue(slug[n..]) == ts
  }

  /** The slug of a new page: the slugified name, disambiguated by the
      creation time in milliseconds. */
  function SlugFor(studentName: string, now: nat): (slug: string)
    ensures SlugPattern(slug, Slugify(studentName), now)
  {
    var name := Slugify(studentName);
    var slug := "student-" + name + "-" + Decimal(now);
    var n := 9 + |name|;
    assert slug[..8] == "student-";
    assert slug[8..n - 1] == name;
    assert slug[n..] == Decimal(now);
    DecimalRoundTrip(now);
    slug
  }

  /** A slug determines the time it was made at, whatever the names: two
      pages created at different milliseconds never share a slug. */
  lemma SlugDeterminesTimestamp(name1: string, now1: nat, name2: string, now2: nat)
    requires SlugFor(name1, now1) == SlugFor(name2, now2)
    ensures now1 == now2 && Slugify(name1) == Slugify(name2)
  {
    var slug := SlugFor(name1, now1);
    assert slug == "student-" + Slugify(name1) + "-" + Decimal(now1);
    assert slug == "student-" + Slugify(name2) + "-" + Decimal(now2);
    var d1, d2 := Decimal(now1), Decimal(now2);
    var n1, n2 := |slug| - |d1|, |slug| - |d2|;
    assert slug[n1 - 1] == '-' && slug[n1..] == d1;
    assert slug[n2 - 1] == '-' && slug[n2..] == d2;
    if n1 != n2 {
      assert false;
    }
    DecimalInjective(now1, now2);
    assert slug[8..n1 - 1] == Slugify(name1);
    assert slug[8..n2 - 1] == Slugify(name2);
  }

  /** `templateData.language || 'en'`: the template's language when it is
      truthy, `"en"` otherwise, so never a falsy value. */
  function LanguageOr(language: Json): (r: Json)
    ensures Truthy(r)
    ensures Truthy(language) ==> r == language
    ensures !Truthy(language) ==> r == Str("en")
  {
    if Truthy(language) then language else Str("en")
  }

  /** The creation request body built from the fetched template page. */
  function NewPagePayload(studentName: string, newTitle: string, template: Page, now: nat): (p: PagePayload)
    ensures p.name == studentName + " - " + newTitle
    ensures p.htmlTitle == newTitle
    ensures SlugPattern(p.slug, Slugify(studentName), now)
    ensures && p.templatePath == template.templatePath
            && p.websitePageType == template.websitePageType
            && p.widgets == template.widgets
            && p.layoutSections == template.layoutSections
    ensures Truthy(p.language)
    ensures Truthy(template.language) ==> p.language == template.language
    ensures !Truthy(template.language) ==> p.language == Str("en")
  {
    PagePayload(
      name := studentName + " - " + newTitle,
      slug := SlugFor(studentName, now),
      htmlTitle := newTitle,
      templatePath := template.templatePath,
      language := LanguageOr(template.language),
      websitePageType := template.websitePageType,
      widgets := template.widgets,
      layoutSections := template.layoutSections)
  }

  // ----- POST /clone -------------------------------------------------------

  datatype CloneRequest = CloneRequest(
    studentName: string,
    studentEmail: string,
    templateId: string,
    newTitle: string,
    assignToTeam: Option<string>,
    teamId: Option<string>)

  /** The pages the handler answers with. */
  datatype View =
    | UserNotFoundView(email: string)
    | CreatedView(studentName: string, studentEmail: string, editUrl: string)
    | CreateErrorView(message: string)

  datatype Response = Response(status: nat, view: View)

  /** A handled request: the answer and the remote calls, in order. */
  datatype Trace = Trace(response: Response, calls: seq<Call>)

  /** `error.response?.data?.message || error.message`. */
  function ErrorText(e: ApiError): (text: string)
    ensures e.responseMessage.Some? && e.responseMessage.value != "" ==> text == e.responseMessage.value
    ensures e.responseMessage == None || e.responseMessage == Some("") ==> text == e.message
  {
    match e.responseMessage
    case Some(m) => if m != "" then m else e.message
    case None => e.message
  }

  function Failed(e: ApiError): Response {
    Response(500, CreateErrorView(ErrorText(e)))
  }

  /** What `POST /clone` does for one request against `server` at time `now`. */
  function CloneRun(server: Server, cfg: Config, req: CloneRequest, now: nat): (t: Trace)
    // the user list is always asked for first, and at most three calls follow
    ensures 1 <= |t.calls| <= 3 && t.calls[0] == GetUsers
    ensures t.response.status in {200, 400, 500}
    // the user gate
    ensures t.response.status == 400 <==> UserLookup(server.users, req.studentEmail).NotFound?
    ensures t.response.status == 400 ==>
      t.calls == [GetUsers] && t.response.view == UserNotFoundView(req.studentEmail)
    // template fetch, then creation only after it succeeded
    ensures t.response.status != 400 ==> |t.calls| >= 2 && t.calls[1] == GetLandingPage(req.templateId)
    ensures forall i :: 0 <= i < |t.calls| && t.calls[i].PostLandingPage? ==>
      && i == 2
      && server.page(req.templateId).Ok?
      && t.calls[i].payload == NewPagePayload(req.studentName, req.newTitle, server.page(req.templateId).data, now)
    ensures |t.calls| == 3 ==> t.calls[2].PostLandingPage?
    // nothing existing is modified and no permission is granted
    ensures forall c :: c in t.calls ==> !c.PatchLandingPage? && !c.PostTeamPermission?
    // remote failures
    ensures t.response.status == 500 && |t.calls| == 2 ==>
      && server.page(req.templateId).Err?
      && t.response.view == CreateErrorView(ErrorText(server.page(req.templateId).error))
    ensures t.response.status == 500 && |t.calls| == 3 ==>
      && server.create(t.calls[2].payload).Err?
      && t.response.view == CreateErrorView(ErrorText(server.create(t.calls[2].payload).error))
    ensures t.response.status != 400 && server.page(req.templateId).Err? ==> t.response.status == 500
    // success
    ensures t.response.status == 200 ==>
      && |t.calls| == 3
      && server.create(t.calls[2].payload).Ok?
      && t.response.view == CreatedView(req.studentName, req.studentEmail,
                                        EditUrl(cfg.portalId, server.create(t.calls[2].payload).data.id))
    ensures |t.calls| == 3 && server.create(t.calls[2].payload).Ok? ==> t.response.status == 200
  {
    if UserLookup(server.users, req.studentEmail).NotFound? then
      Trace(Response(400, UserNotFoundView(req.studentEmail)), [GetUsers])
    else
      var template := server.page(req.templateId);
      if template.Err? then
        Trace(Failed(template.error), [GetUsers, GetLandingPage(req.templateId)])
      else
        var newPage := NewPagePayload(req.studentName, req.newTitle, template.data, now);
        var created := server.create(newPage);
        var calls := [GetUsers, GetLandingPage(req.templateId), PostLandingPage(newPage)];
        if created.Err? then
          Trace(Failed(created.error), calls)
        else
          Trace(Response(200, CreatedView(req.studentName, req.studentEmail, EditUrl(cfg.portalId, created.data.id))), calls)
  }

  /** The `POST /clone` handler over a recording client. */
  method Clone(client: Client, cfg: Config, req: CloneRequest, now: nat) returns (res: Response)
    modifies client
    ensures client.log == old(client.log) + CloneRun(client.server, cfg, req, now).calls
    ensures res == CloneRun(client.server, cfg, req, now).response
  {
    var userCheck := CheckUserExists(client, req.studentEmail);
    if userCheck.NotFound? {
      return Response(400, UserNotFoundView(req.studentEmail));
    }
    var template := client.FetchLandingPage(req.templateId);
    if template.Err? {
      return Failed(template.error);
    }
    var newPage := NewPagePayload(req.studentName, req.newTitle, template.data, now);
    var response := client.CreateLandingPage(newPage);
    if response.Err? {
      return Failed(response.error);
    }
    var editUrl := EditUrl(cfg.portalId, response.data.id);
    res := Response(200, CreatedView(req.studentName, req.studentEmail, editUrl));
  }

  /** The team fields of the form are accepted and ignored. */
  lemma CloneIgnoresTeamFields(server: Server, cfg: Config, req: CloneRequest, now: nat,
                               assignToTeam: Option<string>, teamId: Option<string>)
    ensures CloneRun(server, cfg, req.(assignToTeam := assignToTeam, teamId := teamId), now)
         == CloneRun(server, cfg, req, now)
  {
  }

  /** Submitting the same form twice creates two pages with different slugs:
      nothing is de-duplicated, the timestamp keeps the slugs apart. */
  lemma RepeatedCloneUsesDistinctSlugs(server: Server, cfg: Config, req: CloneRequest, now1: nat, now2: nat)
    requires now1 != now2
    requires |CloneRun(server, cfg, req, now1).calls| == 3
    requires |CloneRun(server, cfg, req, now2).calls| == 3
    ensures CloneRun(server, cfg, req, now1).calls[2].payload.slug
         != CloneRun(server, cfg, req, now2).calls[2].payload.slug
  {
    var p1 := CloneRun(server, cfg, req, now1).calls[2].payload;
    var p2 := CloneRun(server, cfg, req, now2).calls[2].payload;
    if p1.slug == p2.slug {
      SlugDeterminesTimestamp(req.studentName, now1, req.studentName, now2);
    }
  }
}

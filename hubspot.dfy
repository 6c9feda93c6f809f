/** The remote CMS and settings API as both servers see it: the entities it
    returns, the calls they make, and a client that answers each call from a
    fixed server and records it in a call log. */
module HubSpot {
  import opened Js

  datatype User = User(id: string, email: string)

  datatype Team = Team(id: string, name: string)

  /** A landing page as the API returns it, with the fields the servers read. */
  datatype Page = Page(
    id: string,
    name: string,
    templatePath: Json,
    language: Json,
    websitePageType: Json,
    widgets: Json,
    layoutSections: Json)

  /** The body of a list response; its `results` property may be absent. */
  datatype Listing<T> = Listing(results: Option<seq<T>>)

  /** The body returned by a page creation. */
  datatype Created = Created(id: string)

  /** The body of a page creation request. */
  datatype PagePayload = PagePayload(
    name: string,
    slug: string,
    htmlTitle: string,
    templatePath: Json,
    language: Json,
    websitePageType: Json,
    widgets: Json,
    layoutSections: Json)

  /** The body of a page update request. */
  datatype PagePatch = PagePatch(metaDescription: string, name: string)

  /** The body of a team permission request. */
  datatype Grant = Grant(role: string)

  /** An empty success body. */
  datatype Ack = Ack

  /** A rejected request: the client's own message, and the `message` of the
      response body when a response came back with one. */
  datatype ApiError = ApiError(message: string, responseMessage: Option<string>)

  datatype Outcome<T> = Ok(data: T) | Err(error: ApiError)

  /** One remote request, as it is recorded in the call log. */
  datatype Call =
    | GetUsers
    | GetTeams
    | GetLandingPages(limit: nat)
    | GetLandingPage(id: string)
    | PostLandingPage(payload: PagePayload)
    | PatchLandingPage(id: string, patch: PagePatch)
    | PostTeamPermission(teamId: string, pageId: string, grant: Grant)

  /** What the remote side answers to each endpoint. */
  datatype Server = Server(
    users: Outcome<Listing<User>>,
    teams: Outcome<Listing<Team>>,
    pages: Outcome<Listing<Page>>,
    page: string -> Outcome<Page>,
    create: PagePayload -> Outcome<Created>,
    update: (string, PagePatch) -> Outcome<Ack>,
    grant: (string, string, Grant) -> Outcome<Ack>)

  /** The page size the listing requests ask for. */
  const PageListLimit: nat := 100

  /** The authenticated HTTP client: every request is appended to `log`. */
  class Client {
    const server: Server
    var log: seq<Call>

    constructor (server: Server)
      ensures this.server == server && log == []
    {
      this.server := server;
      log := [];
    }

    method ListUsers() returns (r: Outcome<Listing<User>>)
      modifies this
      ensures log == old(log) + [GetUsers] && r == server.users
    {
      log := log + [GetUsers];
      r := server.users;
    }

    method ListTeams() returns (r: Outcome<Listing<Team>>)
      modifies this
      ensures log == old(log) + [GetTeams] && r == server.teams
    {
      log := log + [GetTeams];
      r := server.teams;
    }

    method ListLandingPages() returns (r: Outcome<Listing<Page>>)
      modifies this
      ensures log == old(log) + [GetLandingPages(PageListLimit)] && r == server.pages
    {
      log := log + [GetLandingPages(PageListLimit)];
      r := server.pages;
    }

    method FetchLandingPage(id: string) returns (r: Outcome<Page>)
      modifies this
      ensures log == old(log) + [GetLandingPage(id)] && r == server.page(id)
    {
      log := log + [GetLandingPage(id)];
      r := server.page(id);
    }

    method CreateLandingPage(payload: PagePayload) returns (r: Outcome<Created>)
      modifies this
      ensures log == old(log) + [PostLandingPage(payload)] && r == server.create(payload)
    {
      log := log + [PostLandingPage(payload)];
      r := server.create(payload);
    }

    method UpdateLandingPage(id: string, patch: PagePatch) returns (r: Outcome<Ack>)
      modifies this
      ensures log == old(log) + [PatchLandingPage(id, patch)] && r == server.update(id, patch)
    {
      log := log + [PatchLandingPage(id, patch)];
      r := server.update(id, patch);
    }

    method GrantTeamPermission(teamId: string, pageId: string, grant: Grant) returns (r: Outcome<Ack>)
      modifies this
      ensures log == old(log) + [PostTeamPermission(teamId, pageId, grant)]
      ensures r == server.grant(teamId, pageId, grant)
    {
      log := log + [PostTeamPermission(teamId, pageId, grant)];
      r := server.grant(teamId, pageId, grant);
    }
  }

  /** The environment both servers read at start-up. */
  datatype Config = Config(portalId: Option<string>, defaultTemplateId: Option<string>)

  /** `if (DEFAULT_TEMPLATE_ID)`: set and not empty. */
  predicate HasDefaultTemplate(cfg: Config)
    ensures HasDefaultTemplate(cfg) ==> cfg.defaultTemplateId.Some?
    ensures cfg.defaultTemplateId == Some("") ==> !HasDefaultTemplate(cfg)
    ensures HasDefaultTemplate(cfg) <==>
      cfg.defaultTemplateId.Some? && Truthy(Str(cfg.defaultTemplateId.value))
  {
    cfg.defaultTemplateId.Some? && cfg.defaultTemplateId.value != ""
  }

  const EditUrlPrefix := "https://app.hubspot.com/pages/"

  /** The editor link for a page of the configured portal. */
  function EditUrl(portalId: Option<string>, pageId: string): (url: string)
    ensures |url| >= |pageId|
    ensures url[..|url| - |pageId|] == EditUrlPrefix + Text(portalId) + "/edit/"
    ensures url[|url| - |pageId|..] == pageId
  {
    EditUrlPrefix + Text(portalId) + "/edit/" + pageId
  }

  /** Within one portal the editor link names exactly one page. */
  lemma EditUrlIdentifiesPage(portalId: Option<string>, a: string, b: string)
    requires EditUrl(portalId, a) == EditUrl(portalId, b)
    ensures a == b
  {
  }

  /** `response.data.results || []`, and `[]` when the request failed. */
  function ResultsOrEmpty<T>(reply: Outcome<Listing<T>>): (r: seq<T>)
    ensures reply.Err? ==> r == []
    ensures reply.Ok? && reply.data.results.None? ==> r == []
    ensures reply.Ok? && reply.data.results.Some? ==> r == reply.data.results.value
  {
    if reply.Ok? && reply.data.results.Some? then reply.data.results.value else []
  }
}

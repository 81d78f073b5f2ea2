/** Folder operations (instance.auth.go): create, create-or-fetch, and lookup with or
    without statistics. */
module Folders {
  import opened Wrappers
  import opened JsonValue
  import opened Errors
  import opened Types
  import opened Functions
  import opened Dispatch
  import Documents

  function CreateFolderRequest(c: Settings, body: CreateFolderBody): Result<Request, RequestError>
  {
    MakePrivateRequest(c.config.keys, "POST", c.urls.v1 + "/project/" + body.project + "/folder", Some(FolderJson(body)))
  }

  /** The lookup URL: `/folder/<idOrPath>`, with `?stats=true` appended only when statistics are asked for. */
  function FolderUrl(c: Settings, idOrPath: string, includeStats: bool): (url: string)
    ensures includeStats ==> url == c.urls.v1 + "/folder/" + idOrPath + "?stats=true"
    ensures !includeStats ==> url == c.urls.v1 + "/folder/" + idOrPath
  {
    var url := "/folder/" + idOrPath;
    var url := if includeStats then url + "?stats=true" else url;
    c.urls.v1 + url
  }

  function FolderRequest(c: Settings, idOrPath: string, includeStats: bool): Result<Request, RequestError>
  {
    MakeRequest(c.config.keys, "GET", FolderUrl(c, idOrPath, includeStats), None)
  }

  predicate FolderAnswered(c: Settings, idOrPath: string, includeStats: bool, svc: Service)
  {
    Answers(svc, FolderRequest(c, idOrPath, includeStats), FolderShape(includeStats))
  }

  /** `getFolder`: a public-tier GET of the folder; statistics are present in the result exactly
      when they were asked for. */
  function FetchFolder(c: Settings, idOrPath: string, includeStats: bool, svc: Service): (r: Result<Folder, RequestError>)
    requires FolderAnswered(c, idOrPath, includeStats, svc)
    ensures c.config.keys.public == "" ==> r == Failure(PublicKeyMissing)
    ensures c.config.keys.public != "" ==>
              var sent := SendRequest(svc, Request("GET", FolderUrl(c, idOrPath, includeStats), None,
                                                   [ContentType, Header(PublicKeyHeader, c.config.keys.public)]));
              (sent.Failure? ==> r == Failure(sent.error)) &&
              (sent.Success? ==> FolderFits(sent.value, includeStats) && r == Success(ToFolder(sent.value, includeStats)))
    ensures r.Success? ==> (r.value.stats.Some? <==> includeStats)
  {
    match FolderRequest(c, idOrPath, includeStats)
    case Failure(e) => Failure(e)
    case Success(req) =>
      match SendRequest(svc, req)
      case Failure(e) => Failure(e)
      case Success(data) => Success(ToFolder(data, includeStats))
  }

  /** `GetFolder`: the lookup without statistics; a found folder has none. */
  function GetFolder(c: Settings, idOrPath: string, svc: Service): (r: Result<Folder, RequestError>)
    requires FolderAnswered(c, idOrPath, false, svc)
    ensures r == FetchFolder(c, idOrPath, false, svc)
    ensures r.Success? ==> r.value.stats.None?
  {
    FetchFolder(c, idOrPath, false, svc)
  }

  /** `GetFolderWithStats`: the lookup with statistics; a found folder carries them. */
  function GetFolderWithStats(c: Settings, idOrPath: string, svc: Service): (r: Result<Folder, RequestError>)
    requires FolderAnswered(c, idOrPath, true, svc)
    ensures r == FetchFolder(c, idOrPath, true, svc)
    ensures r.Success? ==> r.value.stats.Some?
  {
    FetchFolder(c, idOrPath, true, svc)
  }

  predicate CreateFolderAnswered(c: Settings, body: CreateFolderBody, svc: Service)
  {
    body.project != "" && body.name != "" ==> Answers(svc, CreateFolderRequest(c, body), FolderShape(false))
  }

  /** `CreateFolder`: project, then name, are required; then a private-tier POST to
      `v1/project/<project>/folder`. A success reports a folder that did not exist before. */
  function CreateFolder(c: Settings, body: CreateFolderBody, svc: Service): (r: Result<NewFolder, RequestError>)
    requires CreateFolderAnswered(c, body, svc)
    ensures body.project == "" ==> r == Failure(ProjectRequired)
    ensures body.project != "" && body.name == "" ==> r == Failure(NameRequired)
    ensures body.project != "" && body.name != "" && c.config.keys.public == "" ==> r == Failure(PublicKeyMissing)
    ensures body.project != "" && body.name != "" && c.config.keys.public != "" && c.config.keys.private == "" ==>
              r == Failure(PrivateKeyMissing)
    ensures body.project != "" && body.name != "" && c.config.keys.public != "" && c.config.keys.private != "" ==>
              var sent := SendRequest(svc, Request("POST", c.urls.v1 + "/project/" + body.project + "/folder",
                                                   Some(FolderJson(body)),
                                                   [ContentType, Header(PublicKeyHeader, c.config.keys.public),
                                                    Header(PrivateKeyHeader, c.config.keys.private)]));
              (sent.Failure? ==> r == Failure(sent.error)) &&
              (sent.Success? ==> FolderFits(sent.value, false) && r == Success(NewFolder(ToFolder(sent.value, false), false)))
    ensures r.Success? ==> !r.value.existing && r.value.folder.stats.None?
  {
    if body.project == "" then Failure(ProjectRequired)
    else if body.name == "" then Failure(NameRequired)
    else
      match CreateFolderRequest(c, body)
      case Failure(e) => Failure(e)
      case Success(req) =>
        match SendRequest(svc, req)
        case Failure(e) => Failure(e)
        case Success(data) => Success(NewFolder(ToFolder(data, false), false))
  }

  predicate FolderIfNotExistsAnswered(c: Settings, body: CreateFolderBody, svc: Service)
  {
    && CreateFolderAnswered(c, body, svc)
    && (CreateFolder(c, body, svc).Failure? && CreateFolder(c, body, svc).error.code == Documents.NameExists ==>
          FolderAnswered(c, MakeFolderPath(body), false, svc))
  }

  /** `CreateFolderIfNotExists`: on "name.exists" the folder at the composed path is looked up
      and reported as existing; every other outcome of the create is passed on. So the flag of a
      success says exactly whether the create met the conflict. */
  function CreateFolderIfNotExists(c: Settings, body: CreateFolderBody, svc: Service): (r: Result<NewFolder, RequestError>)
    requires FolderIfNotExistsAnswered(c, body, svc)
    ensures !(CreateFolder(c, body, svc).Failure? && CreateFolder(c, body, svc).error.code == Documents.NameExists) ==>
              r == CreateFolder(c, body, svc)
    ensures CreateFolder(c, body, svc).Failure? && CreateFolder(c, body, svc).error.code == Documents.NameExists ==>
              var found := GetFolder(c, MakeFolderPath(body), svc);
              (found.Failure? ==> r == Failure(found.error)) &&
              (found.Success? ==> r == Success(NewFolder(found.value, true)))
    ensures r.Success? ==>
              (r.value.existing <==> CreateFolder(c, body, svc).Failure? && CreateFolder(c, body, svc).error.code == Documents.NameExists)
  {
    match CreateFolder(c, body, svc)
    case Success(created) => Success(created)
    case Failure(err) =>
      if err.code == Documents.NameExists then
        match GetFolder(c, MakeFolderPath(body), svc)
        case Failure(e) => Failure(e)
        case Success(folder) => Success(NewFolder(folder, true))
      else Failure(err)
  }
}

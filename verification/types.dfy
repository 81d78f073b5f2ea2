/** Request bodies (types/body.go) and result records (types/response.go), with the
    conversions from a decoded response object to a record. */
module Types {
  import opened Wrappers
  import opened JsonValue

  // ---------- request bodies ----------

  datatype CreateDocumentBody = CreateDocumentBody(name: string, project: string, folder: string, content: string)

  /** Its Go declaration is not among the source files this model covers; it carries the same locating fields as a document. */
  datatype CreateFolderBody = CreateFolderBody(name: string, project: string, folder: string)

  /** Its Go declaration is not among the source files this model covers; the fields are the ones UploadDocument reads. */
  datatype UploadDocumentBody = UploadDocumentBody(name: string, project: string, folder: string, filePath: string)

  /** `json.Marshal` of a CreateDocumentBody, as a JSON value (field tags of types/body.go). */
  function DocumentJson(doc: CreateDocumentBody): Json
  {
    Obj(map["name" := Str(doc.name), "project" := Str(doc.project),
            "folder" := Str(doc.folder), "content" := Str(doc.content)])
  }

  function FolderJson(body: CreateFolderBody): Json
  {
    Obj(map["name" := Str(body.name), "project" := Str(body.project), "folder" := Str(body.folder)])
  }

  // ---------- result records ----------

  datatype AuthenticatedKey = AuthenticatedKey(title: string, projects: seq<string>)
  datatype AuthenticatedData = AuthenticatedData(authenticated: bool, username: string, apiKey: AuthenticatedKey)

  datatype NewDocument = NewDocument(id: string, name: string, path: string, project: string, createdAt: string, existing: bool)

  /** Float64 counters are kept as bit patterns (see JsonValue.Json.Num). */
  datatype FolderStats = FolderStats(documents: bv64, folders: bv64)

  datatype Folder = Folder(id: string, name: string, path: string, project: string,
                           createdAt: string, updatedAt: string, stats: Option<FolderStats>)

  /** A Folder plus whether it already existed; Go embeds Folder, here it is a field. */
  datatype NewFolder = NewFolder(folder: Folder, existing: bool)

  datatype ContentSize = ContentSize(number: bv64, str: string)

  datatype DocumentMeta = DocumentMeta(id: string, name: string, project: string, path: string,
                                       contentSize: ContentSize, folderId: string,
                                       updatedAt: string, createdAt: string)

  datatype UpdatedDocument = UpdatedDocument(changed: bool)
  datatype DeletedDocument = DeletedDocument(deleted: bool)

  // ---------- the response shapes the conversions rely on ----------

  /** What a successful response object must hold for the conversion of each operation to
      succeed: every `.(string)`, `.(bool)`, `.(float64)` and `.(map…)` assertion in the
      source panics on anything else. */
  datatype Shape =
    | AnyShape
    | MetaShape
    | NewDocumentShape
    | FolderShape(withStats: bool)
    | UpdatedShape
    | DeletedShape
    | AuthShape

  predicate MetaFits(m: map<string, Json>)
  {
    && HasStr(m, "id") && HasStr(m, "path") && HasStr(m, "project") && HasStr(m, "name")
    && HasObj(m, "contentSize")
    && HasNum(Field(m, "contentSize").fields, "number")
    && HasStr(Field(m, "contentSize").fields, "string")
    && HasStr(m, "createdAt") && HasStr(m, "updatedAt")
    && (Field(m, "folderId") == Null || HasStr(m, "folderId"))
  }

  predicate FolderFits(m: map<string, Json>, withStats: bool)
  {
    && HasStr(m, "id") && HasStr(m, "name") && HasStr(m, "path") && HasStr(m, "project")
    && HasStr(m, "createdAt") && HasStr(m, "updatedAt")
    && (withStats ==>
          && HasObj(m, "stats")
          && HasNum(Field(m, "stats").fields, "documents")
          && HasNum(Field(m, "stats").fields, "folders"))
  }

  predicate AllStrings(items: seq<Json>)
  {
    forall i | 0 <= i < |items| :: items[i].Str?
  }

  predicate AuthFits(m: map<string, Json>)
  {
    && HasObj(m, "apiKey")
    && HasStr(Field(m, "apiKey").fields, "title")
    && Field(Field(m, "apiKey").fields, "projects").Arr?
    && AllStrings(Field(Field(m, "apiKey").fields, "projects").items)
    && HasBool(m, "authenticated")
    && HasStr(m, "username")
  }

  predicate Fits(m: map<string, Json>, shape: Shape)
  {
    match shape
    case AnyShape => true
    case MetaShape => MetaFits(m)
    case NewDocumentShape =>
      HasStr(m, "id") && HasStr(m, "name") && HasStr(m, "path") && HasStr(m, "project") && HasStr(m, "createdAt")
    case FolderShape(withStats) => FolderFits(m, withStats)
    case UpdatedShape => HasBool(m, "changed")
    case DeletedShape => HasBool(m, "deleted")
    case AuthShape => AuthFits(m)
  }

  // ---------- conversions ----------

  /** `DataToDocumentMeta`: the record fields are copied from the object; `folderId` is
      optional and reads as "" when absent or null. */
  function DataToDocumentMeta(m: map<string, Json>): (d: DocumentMeta)
    requires MetaFits(m)
    ensures Str(d.id) == m["id"] && Str(d.path) == m["path"] && Str(d.project) == m["project"]
    ensures Str(d.name) == m["name"] && Str(d.createdAt) == m["createdAt"] && Str(d.updatedAt) == m["updatedAt"]
    ensures Num(d.contentSize.number) == m["contentSize"].fields["number"]
    ensures Str(d.contentSize.str) == m["contentSize"].fields["string"]
    ensures Field(m, "folderId") == Null ==> d.folderId == ""
    ensures Field(m, "folderId") != Null ==> Str(d.folderId) == m["folderId"]
  {
    var size := Field(m, "contentSize").fields;
    var d := DocumentMeta(
      id := Field(m, "id").s,
      name := Field(m, "name").s,
      project := Field(m, "project").s,
      path := Field(m, "path").s,
      contentSize := ContentSize(Field(size, "number").bits, Field(size, "string").s),
      folderId := "",
      updatedAt := Field(m, "updatedAt").s,
      createdAt := Field(m, "createdAt").s);
    if Field(m, "folderId") != Null then d.(folderId := Field(m, "folderId").s) else d
  }

  /** The object a service sends for a document's metadata; an empty folder id is left out. */
  function MetaToData(d: DocumentMeta): (m: map<string, Json>)
    ensures MetaFits(m)
    ensures DataToDocumentMeta(m) == d
  {
    var m := map["id" := Str(d.id), "path" := Str(d.path), "project" := Str(d.project),
                 "name" := Str(d.name),
                 "contentSize" := Obj(map["number" := Num(d.contentSize.number), "string" := Str(d.contentSize.str)]),
                 "createdAt" := Str(d.createdAt), "updatedAt" := Str(d.updatedAt)];
    if d.folderId == "" then m else m["folderId" := Str(d.folderId)]
  }

  /** The record CreateDocument builds from the service's answer; it always claims `exists`. */
  function ToNewDocument(m: map<string, Json>): (d: NewDocument)
    requires Fits(m, NewDocumentShape)
    ensures Str(d.id) == m["id"] && Str(d.name) == m["name"] && Str(d.path) == m["path"]
    ensures Str(d.project) == m["project"] && Str(d.createdAt) == m["createdAt"]
    ensures d.existing
  {
    NewDocument(Field(m, "id").s, Field(m, "name").s, Field(m, "path").s,
                Field(m, "project").s, Field(m, "createdAt").s, true)
  }

  /** The Folder record getFolder and CreateFolder build; stats are read only when asked for. */
  function ToFolder(m: map<string, Json>, withStats: bool): (f: Folder)
    requires FolderFits(m, withStats)
    ensures Str(f.id) == m["id"] && Str(f.name) == m["name"] && Str(f.path) == m["path"]
    ensures Str(f.project) == m["project"] && Str(f.createdAt) == m["createdAt"] && Str(f.updatedAt) == m["updatedAt"]
    ensures f.stats.Some? <==> withStats
    ensures withStats ==>
              Num(f.stats.value.documents) == m["stats"].fields["documents"] &&
              Num(f.stats.value.folders) == m["stats"].fields["folders"]
  {
    var f := Folder(Field(m, "id").s, Field(m, "name").s, Field(m, "path").s, Field(m, "project").s,
                    Field(m, "createdAt").s, Field(m, "updatedAt").s, None);
    if withStats then
      var stats := Field(m, "stats").fields;
      f.(stats := Some(FolderStats(Field(stats, "documents").bits, Field(stats, "folders").bits)))
    else f
  }

  /** The object a service sends for a folder; statistics only when the folder has them. */
  function FolderToData(f: Folder): (m: map<string, Json>)
    ensures FolderFits(m, f.stats.Some?)
    ensures ToFolder(m, f.stats.Some?) == f
  {
    var m := map["id" := Str(f.id), "name" := Str(f.name), "path" := Str(f.path), "project" := Str(f.project),
                 "createdAt" := Str(f.createdAt), "updatedAt" := Str(f.updatedAt)];
    match f.stats
    case None => m
    case Some(st) => m["stats" := Obj(map["documents" := Num(st.documents), "folders" := Num(st.folders)])]
  }

  /** The project names of an API key, in order: the list the append loop builds. */
  function ProjectNames(items: seq<Json>): (names: seq<string>)
    requires AllStrings(items)
    ensures |names| == |items|
    ensures forall i | 0 <= i < |items| :: Str(names[i]) == items[i]
  {
    if items == [] then [] else ProjectNames(items[..|items| - 1]) + [items[|items| - 1].s]
  }

  /** The identity Authenticate stores: flag, username, and the key's title and projects. */
  function ToAuthenticatedData(m: map<string, Json>): (a: AuthenticatedData)
    requires AuthFits(m)
    ensures Bool(a.authenticated) == m["authenticated"] && Str(a.username) == m["username"]
    ensures Str(a.apiKey.title) == m["apiKey"].fields["title"]
    ensures a.apiKey.projects == ProjectNames(m["apiKey"].fields["projects"].items)
  {
    var key := Field(m, "apiKey").fields;
    AuthenticatedData(Field(m, "authenticated").b, Field(m, "username").s,
                      AuthenticatedKey(Field(key, "title").s, ProjectNames(Field(key, "projects").items)))
  }
}

/** Document operations of an authenticated instance (instance.auth.go), including the
    create-or-fetch protocol. Each takes the instance's settings and the transport. */
module Documents {
  import opened Wrappers
  import opened JsonValue
  import opened Errors
  import opened Types
  import opened Functions
  import opened Dispatch

  /** What the file system says about an upload's path: missing, present but unreadable, or its text. */
  datatype FileProbe = NotExist | Unreadable | Readable(content: string)

  const NameExists := "name.exists"

  // ---------- the request each operation sends ----------

  function OwnContentRequest(c: Settings, idOrPath: string): Result<Request, RequestError>
  {
    MakeRequest(c.config.keys, "GET", c.urls.v1 + "/file/" + idOrPath, None)
  }

  function OwnMetaRequest(c: Settings, idOrPath: string): Result<Request, RequestError>
  {
    MakeRequest(c.config.keys, "GET", c.urls.v1 + "/meta/file/" + idOrPath, None)
  }

  function CreateDocumentRequest(c: Settings, doc: CreateDocumentBody): Result<Request, RequestError>
  {
    MakePrivateRequest(c.config.keys, "POST", c.urls.v1 + "/project/" + doc.project + "/document", Some(DocumentJson(doc)))
  }

  function UpdateDocumentRequest(c: Settings, idOrPath: string, content: string): Result<Request, RequestError>
  {
    MakePrivateRequest(c.config.keys, "POST", c.urls.v1 + "/file/" + idOrPath, Some(Obj(map["content" := Str(content)])))
  }

  function DeleteDocumentRequest(c: Settings, idOrPath: string): Result<Request, RequestError>
  {
    MakePrivateRequest(c.config.keys, "DELETE", c.urls.v1 + "/file/" + idOrPath, None)
  }

  // ---------- reads ----------

  /** `GetOwnContent`: a public-tier GET of `v1/file/<idOrPath>`; the normalised answer is returned as is. */
  function GetOwnContent(c: Settings, idOrPath: string, svc: Service): (r: Result<map<string, Json>, RequestError>)
    requires Answers(svc, OwnContentRequest(c, idOrPath), AnyShape)
    ensures c.config.keys.public == "" ==> r == Failure(PublicKeyMissing)
    ensures c.config.keys.public != "" ==>
              r == SendRequest(svc, Request("GET", c.urls.v1 + "/file/" + idOrPath, None,
                                            [ContentType, Header(PublicKeyHeader, c.config.keys.public)]))
  {
    match OwnContentRequest(c, idOrPath)
    case Failure(e) => Failure(e)
    case Success(req) =>
      match SendRequest(svc, req)
      case Failure(e) => Failure(e)
      case Success(data) => Success(data)
  }

  /** `GetOwnContentAsString`: the same request, answered as raw text. */
  function GetOwnContentAsString(c: Settings, idOrPath: string, svc: Service): (r: Result<string, RequestError>)
    requires Answers(svc, OwnContentRequest(c, idOrPath), AnyShape)
    ensures c.config.keys.public == "" ==> r == Failure(PublicKeyMissing)
    ensures c.config.keys.public != "" ==>
              r == SendRequestAsText(svc, Request("GET", c.urls.v1 + "/file/" + idOrPath, None,
                                                  [ContentType, Header(PublicKeyHeader, c.config.keys.public)]))
  {
    match OwnContentRequest(c, idOrPath)
    case Failure(e) => Failure(e)
    case Success(req) =>
      match SendRequestAsText(svc, req)
      case Failure(e) => Failure(e)
      case Success(text) => Success(text)
  }

  predicate OwnMetaAnswered(c: Settings, idOrPath: string, svc: Service)
  {
    Answers(svc, OwnMetaRequest(c, idOrPath), MetaShape)
  }

  /** `GetOwnDocumentMeta`: a public-tier GET of `v1/meta/file/<idOrPath>`, converted to a DocumentMeta. */
  function GetOwnDocumentMeta(c: Settings, idOrPath: string, svc: Service): (r: Result<DocumentMeta, RequestError>)
    requires OwnMetaAnswered(c, idOrPath, svc)
    ensures c.config.keys.public == "" ==> r == Failure(PublicKeyMissing)
    ensures c.config.keys.public != "" ==>
              var sent := SendRequest(svc, Request("GET", c.urls.v1 + "/meta/file/" + idOrPath, None,
                                                   [ContentType, Header(PublicKeyHeader, c.config.keys.public)]));
              (sent.Failure? ==> r == Failure(sent.error)) &&
              (sent.Success? ==> MetaFits(sent.value) && r == Success(DataToDocumentMeta(sent.value)))
  {
    match OwnMetaRequest(c, idOrPath)
    case Failure(e) => Failure(e)
    case Success(req) =>
      match SendRequest(svc, req)
      case Failure(e) => Failure(e)
      case Success(data) => Success(DataToDocumentMeta(data))
  }

  /** `HasOwnDocument`: existence is "the metadata lookup did not fail", so it is false without a public key. */
  function HasOwnDocument(c: Settings, idOrPath: string, svc: Service): (found: bool)
    requires OwnMetaAnswered(c, idOrPath, svc)
    ensures found <==> GetOwnDocumentMeta(c, idOrPath, svc).Success?
    ensures c.config.keys.public == "" ==> !found
  {
    match GetOwnDocumentMeta(c, idOrPath, svc)
    case Failure(_) => false
    case Success(_) => true
  }

  // ---------- writes ----------

  /** The local checks CreateDocument makes, in order, before it builds a request. */
  function CreateDocumentPreflight(doc: CreateDocumentBody): (r: Option<RequestError>)
    ensures r.None? <==> doc.project != "" && doc.name != "" && IsValidJsonString(doc.content)
    ensures doc.project == "" ==> r == Some(ProjectRequired)
    ensures doc.project != "" && doc.name == "" ==> r == Some(NameRequired)
  {
    if doc.project == "" then Some(ProjectRequired)
    else if doc.name == "" then Some(NameRequired)
    else if !IsValidJsonString(doc.content) then Some(InvalidJsonError)
    else None
  }

  predicate CreateDocumentAnswered(c: Settings, doc: CreateDocumentBody, svc: Service)
  {
    doc.project != "" && doc.name != "" && IsValidJsonString(doc.content) ==>
      Answers(svc, CreateDocumentRequest(c, doc), NewDocumentShape)
  }

  /** `CreateDocument`: project, name and JSON content are checked in that order before the key
      tiers; a private-tier POST to `v1/project/<project>/document` follows. A success always
      claims the document already existed. */
  function CreateDocument(c: Settings, doc: CreateDocumentBody, svc: Service): (r: Result<NewDocument, RequestError>)
    requires CreateDocumentAnswered(c, doc, svc)
    ensures doc.project == "" ==> r == Failure(ProjectRequired)
    ensures doc.project != "" && doc.name == "" ==> r == Failure(NameRequired)
    ensures doc.project != "" && doc.name != "" && !IsValidJsonString(doc.content) ==> r == Failure(InvalidJsonError)
    ensures CreateDocumentPreflight(doc).None? && c.config.keys.public == "" ==> r == Failure(PublicKeyMissing)
    ensures CreateDocumentPreflight(doc).None? && c.config.keys.public != "" && c.config.keys.private == "" ==>
              r == Failure(PrivateKeyMissing)
    ensures CreateDocumentPreflight(doc).None? && c.config.keys.public != "" && c.config.keys.private != "" ==>
              var sent := SendRequest(svc, Request("POST", c.urls.v1 + "/project/" + doc.project + "/document",
                                                   Some(DocumentJson(doc)),
                                                   [ContentType, Header(PublicKeyHeader, c.config.keys.public),
                                                    Header(PrivateKeyHeader, c.config.keys.private)]));
              (sent.Failure? ==> r == Failure(sent.error)) &&
              (sent.Success? ==> r.Success? &&
                                 Str(r.value.id) == sent.value["id"] && Str(r.value.name) == sent.value["name"] &&
                                 Str(r.value.path) == sent.value["path"] && Str(r.value.project) == sent.value["project"] &&
                                 Str(r.value.createdAt) == sent.value["createdAt"])
    ensures r.Success? ==> r.value.existing
  {
    if doc.project == "" then Failure(ProjectRequired)
    else if doc.name == "" then Failure(NameRequired)
    else if !IsValidJsonString(doc.content) then Failure(InvalidJsonError)
    else
      match CreateDocumentRequest(c, doc)
      case Failure(e) => Failure(e)
      case Success(req) =>
        match SendRequest(svc, req)
        case Failure(e) => Failure(e)
        case Success(data) => Success(ToNewDocument(data))
  }

  /** The document UploadDocument asks CreateDocument for: the name defaults to the file's base name. */
  function UploadTarget(up: UploadDocumentBody, content: string): (doc: CreateDocumentBody)
    ensures doc.project == up.project && doc.folder == up.folder && doc.content == content
    ensures up.name != "" ==> doc.name == up.name
    ensures up.name == "" ==> doc.name == Base(up.filePath)
    ensures doc.name != ""
  {
    var name := if up.name == "" then Base(up.filePath) else up.name;
    BaseIsAName(up.filePath);
    CreateDocumentBody(name, up.project, up.folder, content)
  }

  predicate UploadAnswered(c: Settings, up: UploadDocumentBody, file: FileProbe, svc: Service)
  {
    file.Readable? ==> CreateDocumentAnswered(c, UploadTarget(up, file.content), svc)
  }

  /** `UploadDocument`: project, then the file (missing, unreadable), then its JSON, are checked
      before delegating to CreateDocument; the defaulted name is never empty, so the delegated
      create passes all of its own local checks. */
  function UploadDocument(c: Settings, up: UploadDocumentBody, file: FileProbe, svc: Service): (r: Result<NewDocument, RequestError>)
    requires UploadAnswered(c, up, file, svc)
    ensures up.project == "" ==> r == Failure(ProjectRequired)
    ensures up.project != "" && file.NotExist? ==> r == Failure(FileNotFound)
    ensures up.project != "" && file.Unreadable? ==> r == Failure(InvalidFile)
    ensures up.project != "" && file.Readable? && !IsValidJsonString(file.content) ==> r == Failure(InvalidJsonError)
    ensures up.project != "" && file.Readable? && IsValidJsonString(file.content) ==>
              r == CreateDocument(c, UploadTarget(up, file.content), svc)
    ensures up.project != "" && file.Readable? && IsValidJsonString(file.content) ==>
              CreateDocumentPreflight(UploadTarget(up, file.content)).None?
  {
    if up.project == "" then Failure(ProjectRequired)
    else
      match file
      case NotExist => Failure(FileNotFound)
      case Unreadable => Failure(InvalidFile)
      case Readable(content) =>
        if !IsValidJsonString(content) then Failure(InvalidJsonError)
        else CreateDocument(c, UploadTarget(up, content), svc)
  }

  predicate IfNotExistsAnswered(c: Settings, doc: CreateDocumentBody, svc: Service)
  {
    && CreateDocumentAnswered(c, doc, svc)
    && (CreateDocument(c, doc, svc).Failure? && CreateDocument(c, doc, svc).error.code == NameExists ==>
          OwnMetaAnswered(c, MakeDocumentPath(doc), svc))
  }

  /** `CreateDocumentIfNotExists`: a create whose only failure is "name.exists" falls back to the
      metadata at the composed path, keeping the requested name; every other outcome of the
      create is passed on unchanged. */
  function CreateDocumentIfNotExists(c: Settings, doc: CreateDocumentBody, svc: Service): (r: Result<NewDocument, RequestError>)
    requires IfNotExistsAnswered(c, doc, svc)
    ensures !(CreateDocument(c, doc, svc).Failure? && CreateDocument(c, doc, svc).error.code == NameExists) ==>
              r == CreateDocument(c, doc, svc)
    ensures CreateDocument(c, doc, svc).Failure? && CreateDocument(c, doc, svc).error.code == NameExists ==>
              var meta := GetOwnDocumentMeta(c, MakeDocumentPath(doc), svc);
              (meta.Failure? ==> r == Failure(meta.error)) &&
              (meta.Success? ==> r == Success(NewDocument(meta.value.id, doc.name, meta.value.path,
                                                          meta.value.project, meta.value.createdAt, true)))
    ensures r.Success? ==> r.value.existing
  {
    match CreateDocument(c, doc, svc)
    case Success(created) => Success(created)
    case Failure(err) =>
      if err.code == NameExists then
        match GetOwnDocumentMeta(c, MakeDocumentPath(doc), svc)
        case Failure(e) => Failure(e)
        case Success(meta) => Success(NewDocument(meta.id, doc.name, meta.path, meta.project, meta.createdAt, true))
      else Failure(err)
  }

  /** `UpdateOwnDocument`: the content is checked to be JSON before the key tiers; then a
      private-tier POST of `{content}` to `v1/file/<idOrPath>`. */
  function UpdateOwnDocument(c: Settings, idOrPath: string, content: string, svc: Service): (r: Result<UpdatedDocument, RequestError>)
    requires IsValidJsonString(content) ==> Answers(svc, UpdateDocumentRequest(c, idOrPath, content), UpdatedShape)
    ensures !IsValidJsonString(content) ==> r == Failure(InvalidJsonError)
    ensures IsValidJsonString(content) && c.config.keys.public == "" ==> r == Failure(PublicKeyMissing)
    ensures IsValidJsonString(content) && c.config.keys.public != "" && c.config.keys.private == "" ==> r == Failure(PrivateKeyMissing)
    ensures IsValidJsonString(content) && c.config.keys.public != "" && c.config.keys.private != "" ==>
              var sent := SendRequest(svc, Request("POST", c.urls.v1 + "/file/" + idOrPath,
                                                   Some(Obj(map["content" := Str(content)])),
                                                   [ContentType, Header(PublicKeyHeader, c.config.keys.public),
                                                    Header(PrivateKeyHeader, c.config.keys.private)]));
              (sent.Failure? ==> r == Failure(sent.error)) &&
              (sent.Success? ==> r == Success(UpdatedDocument(sent.value["changed"].b)))
  {
    if !IsValidJsonString(content) then Failure(InvalidJsonError)
    else
      match UpdateDocumentRequest(c, idOrPath, content)
      case Failure(e) => Failure(e)
      case Success(req) =>
        match SendRequest(svc, req)
        case Failure(e) => Failure(e)
        case Success(data) => Success(UpdatedDocument(Field(data, "changed").b))
  }

  /** `DeleteDocument`: a private-tier DELETE of `v1/file/<idOrPath>`. */
  function DeleteDocument(c: Settings, idOrPath: string, svc: Service): (r: Result<DeletedDocument, RequestError>)
    requires Answers(svc, DeleteDocumentRequest(c, idOrPath), DeletedShape)
    ensures c.config.keys.public == "" ==> r == Failure(PublicKeyMissing)
    ensures c.config.keys.public != "" && c.config.keys.private == "" ==> r == Failure(PrivateKeyMissing)
    ensures c.config.keys.public != "" && c.config.keys.private != "" ==>
              var sent := SendRequest(svc, Request("DELETE", c.urls.v1 + "/file/" + idOrPath, None,
                                                   [ContentType, Header(PublicKeyHeader, c.config.keys.public),
                                                    Header(PrivateKeyHeader, c.config.keys.private)]));
              (sent.Failure? ==> r == Failure(sent.error)) &&
              (sent.Success? ==> r == Success(DeletedDocument(sent.value["deleted"].b)))
  {
    match DeleteDocumentRequest(c, idOrPath)
    case Failure(e) => Failure(e)
    case Success(req) =>
      match SendRequest(svc, req)
      case Failure(e) => Failure(e)
      case Success(data) => Success(DeletedDocument(Field(data, "deleted").b))
  }
}

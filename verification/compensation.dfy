/** The create-or-fetch protocol and the pre-flight rules, stated against a service that
    holds a given document or folder at the composed path. */
module Compensation {
  import opened Wrappers
  import opened JsonValue
  import opened Errors
  import opened Types
  import opened Functions
  import opened Dispatch
  import opened Documents
  import opened Folders

  // ---------- pre-flight: nothing is sent ----------

  /** A create that fails a local check, or lacks a key, gives the same answer whatever the
      service would have said: no request reaches it. */
  lemma CreateDocumentPreflightSendsNothing(c: Settings, doc: CreateDocumentBody, svc1: Service, svc2: Service)
    requires CreateDocumentAnswered(c, doc, svc1) && CreateDocumentAnswered(c, doc, svc2)
    requires CreateDocumentPreflight(doc).Some? || c.config.keys.public == "" || c.config.keys.private == ""
    ensures CreateDocument(c, doc, svc1) == CreateDocument(c, doc, svc2)
    ensures CreateDocument(c, doc, svc1).Failure?
  {
  }

  /** Without a private key every write fails with a bad_request, before sending anything. */
  lemma WritesNeedThePrivateKey(c: Settings, doc: CreateDocumentBody, folder: CreateFolderBody,
                                idOrPath: string, content: string, svc: Service)
    requires c.config.keys.private == ""
    requires CreateDocumentAnswered(c, doc, svc) && CreateFolderAnswered(c, folder, svc)
    requires IsValidJsonString(content) ==> Answers(svc, UpdateDocumentRequest(c, idOrPath, content), UpdatedShape)
    requires Answers(svc, DeleteDocumentRequest(c, idOrPath), DeletedShape)
    requires CreateDocumentPreflight(doc).None? && folder.project != "" && folder.name != "" && IsValidJsonString(content)
    ensures CreateDocument(c, doc, svc).Failure? && CreateDocument(c, doc, svc).error.code == BadRequest
    ensures CreateFolder(c, folder, svc).Failure? && CreateFolder(c, folder, svc).error.code == BadRequest
    ensures UpdateOwnDocument(c, idOrPath, content, svc).Failure? && UpdateOwnDocument(c, idOrPath, content, svc).error.code == BadRequest
    ensures DeleteDocument(c, idOrPath, svc).Failure? && DeleteDocument(c, idOrPath, svc).error.code == BadRequest
  {
  }

  /** Content that is not JSON text is refused by every writer of content, whatever the keys. */
  lemma InvalidContentIsRefused(c: Settings, doc: CreateDocumentBody, up: UploadDocumentBody, idOrPath: string, svc: Service)
    requires !IsValidJsonString(doc.content) && doc.project != "" && doc.name != ""
    requires CreateDocumentAnswered(c, doc, svc)
    requires up.project != ""
    requires UploadAnswered(c, up, Readable(doc.content), svc)
    ensures CreateDocument(c, doc, svc) == Failure(InvalidJsonError)
    ensures UploadDocument(c, up, Readable(doc.content), svc) == Failure(InvalidJsonError)
    ensures UpdateOwnDocument(c, idOrPath, doc.content, svc) == Failure(InvalidJsonError)
  {
  }

  // ---------- a service that holds a document ----------

  /** The service holds document `m` at path `p`: it answers the metadata lookup of `p` with it. */
  predicate ServesMetaAt(c: Settings, svc: Service, p: string, m: DocumentMeta)
    requires c.config.keys.public != ""
  {
    var res := svc(OwnMetaRequest(c, p).value);
    res.Received? && res.status == 200 && res.body == Parsed(Obj(MetaToData(m)))
  }

  /** The service refuses `req` with the structured "name.exists" error. */
  predicate RefusesAsExisting(svc: Service, req: Request)
  {
    var res := svc(req);
    && res.Received? && res.status != 200
    && res.body.Parsed? && res.body.value.Obj?
    && Field(res.body.value.fields, "error").Obj?
    && Field(Field(res.body.value.fields, "error").fields, "code") == Str(NameExists)
    && HasStr(Field(res.body.value.fields, "error").fields, "message")
  }

  /** A document the service holds is found by its path, and so it exists. */
  lemma StoredDocumentIsFound(c: Settings, svc: Service, p: string, m: DocumentMeta)
    requires c.config.keys.public != ""
    requires ServesMetaAt(c, svc, p, m)
    ensures OwnMetaAnswered(c, p, svc)
    ensures GetOwnDocumentMeta(c, p, svc) == Success(m)
    ensures HasOwnDocument(c, p, svc)
  {
  }

  /** A lookup the service answers with "notFound" means the document does not exist. */
  lemma MissingDocumentIsAbsent(c: Settings, svc: Service, p: string, message: string)
    requires c.config.keys.public != ""
    requires svc(OwnMetaRequest(c, p).value).Received?
    requires svc(OwnMetaRequest(c, p).value).status == 404
    requires svc(OwnMetaRequest(c, p).value).body ==
             Parsed(Obj(map["error" := Obj(map["code" := Str("notFound"), "message" := Str(message)])]))
    ensures OwnMetaAnswered(c, p, svc)
    ensures GetOwnDocumentMeta(c, p, svc) == Failure(RequestError("notFound", message))
    ensures !HasOwnDocument(c, p, svc)
  {
    var data := map["error" := Obj(map["code" := Str("notFound"), "message" := Str(message)])];
    assert Field(data, "error") == Obj(map["code" := Str("notFound"), "message" := Str(message)]);
  }

  /** When the create is refused as a duplicate, CreateDocumentIfNotExists resolves to the held
      document at the composed path, under the requested name, flagged as existing. */
  lemma ConflictResolvesToStoredDocument(c: Settings, doc: CreateDocumentBody, svc: Service, m: DocumentMeta)
    requires c.config.keys.public != "" && c.config.keys.private != ""
    requires CreateDocumentPreflight(doc).None?
    requires RefusesAsExisting(svc, CreateDocumentRequest(c, doc).value)
    requires ServesMetaAt(c, svc, MakeDocumentPath(doc), m)
    ensures IfNotExistsAnswered(c, doc, svc)
    ensures CreateDocumentIfNotExists(c, doc, svc) == Success(NewDocument(m.id, doc.name, m.path, m.project, m.createdAt, true))
  {
    var req := CreateDocumentRequest(c, doc).value;
    var err := Field(DecodeObject(svc(req).body).value, "error");
    assert SendRequest(svc, req) == Failure(RequestError(NameExists, Field(err.fields, "message").s));
    StoredDocumentIsFound(c, svc, MakeDocumentPath(doc), m);
  }

  /** Both keys are set, the local checks pass, and the service accepts the create. */
  predicate AcceptsCreate(c: Settings, doc: CreateDocumentBody, svc: Service)
  {
    && c.config.keys.public != "" && c.config.keys.private != ""
    && CreateDocumentPreflight(doc).None?
    && Conforms(svc, CreateDocumentRequest(c, doc).value, NewDocumentShape)
    && SendRequest(svc, CreateDocumentRequest(c, doc).value).Success?
  }

  /** A create the service accepts is passed on by CreateDocumentIfNotExists, with no lookup. */
  lemma FreshCreateIsPassedOn(c: Settings, doc: CreateDocumentBody, svc: Service)
    requires AcceptsCreate(c, doc, svc)
    ensures IfNotExistsAnswered(c, doc, svc)
    ensures CreateDocumentIfNotExists(c, doc, svc) ==
              Success(ToNewDocument(SendRequest(svc, CreateDocumentRequest(c, doc).value).value))
  {
    var created := ToNewDocument(SendRequest(svc, CreateDocumentRequest(c, doc).value).value);
    assert CreateDocument(c, doc, svc) == Success(created);
  }

  /** Creating the same document twice: the first call creates it, the second meets the
      conflict and finds it. Both report the same id, and both report it as existing, so the
      flag does not tell the two calls apart. */
  lemma RepeatedCreateFindsSameDocument(c: Settings, doc: CreateDocumentBody, first: Service, second: Service,
                                        m: DocumentMeta)
    requires AcceptsCreate(c, doc, first)
    requires RefusesAsExisting(second, CreateDocumentRequest(c, doc).value)
    requires ServesMetaAt(c, second, MakeDocumentPath(doc), m)
    requires Str(m.id) == SendRequest(first, CreateDocumentRequest(c, doc).value).value["id"]
    ensures IfNotExistsAnswered(c, doc, first) && IfNotExistsAnswered(c, doc, second)
    ensures var once, twice := CreateDocumentIfNotExists(c, doc, first), CreateDocumentIfNotExists(c, doc, second);
            once.Success? && twice.Success? && once.value.id == twice.value.id && once.value.existing && twice.value.existing
  {
    FreshCreateIsPassedOn(c, doc, first);
    ConflictResolvesToStoredDocument(c, doc, second, m);
    var data := SendRequest(first, CreateDocumentRequest(c, doc).value).value;
    assert Str(ToNewDocument(data).id) == data["id"];
  }

  /** The folder protocol: a refused create resolves to the folder found at the composed path,
      without statistics, flagged as existing. (That a fresh create is flagged as new is
      stated by `Folders.CreateFolderIfNotExists`.) */
  lemma ConflictResolvesToFolder(c: Settings, body: CreateFolderBody, svc: Service, f: Folder)
    requires c.config.keys.public != "" && c.config.keys.private != ""
    requires body.project != "" && body.name != ""
    requires f.stats.None?
    requires RefusesAsExisting(svc, CreateFolderRequest(c, body).value)
    requires svc(FolderRequest(c, MakeFolderPath(body), false).value).Received?
    requires svc(FolderRequest(c, MakeFolderPath(body), false).value).status == 200
    requires svc(FolderRequest(c, MakeFolderPath(body), false).value).body == Parsed(Obj(FolderToData(f)))
    ensures FolderIfNotExistsAnswered(c, body, svc)
    ensures CreateFolderIfNotExists(c, body, svc) == Success(NewFolder(f, true))
  {
    var req := CreateFolderRequest(c, body).value;
    var err := Field(DecodeObject(svc(req).body).value, "error");
    assert SendRequest(svc, req) == Failure(RequestError(NameExists, Field(err.fields, "message").s));
  }
}

/** Reads of published content that need no key (instance.go). */
module PublicReads {
  import opened Wrappers
  import opened JsonValue
  import opened Errors
  import opened Types
  import opened Dispatch

  function PublicGet(c: Settings, prefix: string, idOrPath: string): Request
  {
    MakePublicRequest("GET", c.urls.public + prefix + idOrPath, None).value
  }

  /** `GetContent`: GET `<public>/f/<idOrPath>` with no key; the answer is returned as is. */
  function GetContent(c: Settings, idOrPath: string, svc: Service): (r: Result<map<string, Json>, RequestError>)
    requires Conforms(svc, PublicGet(c, "/f/", idOrPath), AnyShape)
    ensures r == SendRequest(svc, Request("GET", c.urls.public + "/f/" + idOrPath, None, [ContentType]))
  {
    match MakePublicRequest("GET", c.urls.public + "/f/" + idOrPath, None)
    case Failure(e) => Failure(e)
    case Success(req) =>
      match SendRequest(svc, req)
      case Failure(e) => Failure(e)
      case Success(data) => Success(data)
  }

  /** `GetContentAsString`: the same request, answered as raw text. */
  function GetContentAsString(c: Settings, idOrPath: string, svc: Service): (r: Result<string, RequestError>)
    requires Conforms(svc, PublicGet(c, "/f/", idOrPath), AnyShape)
    ensures r == SendRequestAsText(svc, Request("GET", c.urls.public + "/f/" + idOrPath, None, [ContentType]))
  {
    match MakePublicRequest("GET", c.urls.public + "/f/" + idOrPath, None)
    case Failure(e) => Failure(e)
    case Success(req) =>
      match SendRequestAsText(svc, req)
      case Failure(e) => Failure(e)
      case Success(text) => Success(text)
  }

  /** `GetDocumentMeta`: GET `<public>/meta/f/<idOrPath>` with no key, converted to a DocumentMeta. */
  function GetDocumentMeta(c: Settings, idOrPath: string, svc: Service): (r: Result<DocumentMeta, RequestError>)
    requires Conforms(svc, PublicGet(c, "/meta/f/", idOrPath), MetaShape)
    ensures var sent := SendRequest(svc, Request("GET", c.urls.public + "/meta/f/" + idOrPath, None, [ContentType]));
            (sent.Failure? ==> r == Failure(sent.error)) &&
            (sent.Success? ==> MetaFits(sent.value) && r == Success(DataToDocumentMeta(sent.value)))
  {
    match MakePublicRequest("GET", c.urls.public + "/meta/f/" + idOrPath, None)
    case Failure(e) => Failure(e)
    case Success(req) =>
      match SendRequest(svc, req)
      case Failure(e) => Failure(e)
      case Success(data) => Success(DataToDocumentMeta(data))
  }

  /** `GetGithubContent`: GET `<public>/gh/<path>` with no key. */
  function GetGithubContent(c: Settings, path: string, svc: Service): (r: Result<map<string, Json>, RequestError>)
    requires Conforms(svc, PublicGet(c, "/gh/", path), AnyShape)
    ensures r == SendRequest(svc, Request("GET", c.urls.public + "/gh/" + path, None, [ContentType]))
  {
    match MakePublicRequest("GET", c.urls.public + "/gh/" + path, None)
    case Failure(e) => Failure(e)
    case Success(req) =>
      match SendRequest(svc, req)
      case Failure(e) => Failure(e)
      case Success(data) => Success(data)
  }

  /** `GetGithubContentAsString`: the same request, answered as raw text. */
  function GetGithubContentAsString(c: Settings, path: string, svc: Service): (r: Result<string, RequestError>)
    requires Conforms(svc, PublicGet(c, "/gh/", path), AnyShape)
    ensures r == SendRequestAsText(svc, Request("GET", c.urls.public + "/gh/" + path, None, [ContentType]))
  {
    match MakePublicRequest("GET", c.urls.public + "/gh/" + path, None)
    case Failure(e) => Failure(e)
    case Success(req) =>
      match SendRequestAsText(svc, req)
      case Failure(e) => Failure(e)
      case Success(text) => Success(text)
  }

  /** Public reads depend on the urls only: the keys, present or not, change nothing, so they
      never fail for want of a key. */
  lemma PublicReadsIgnoreKeys(c: Settings, k: Keys, x: string, svc: Service)
    requires Conforms(svc, PublicGet(c, "/f/", x), AnyShape)
    requires Conforms(svc, PublicGet(c, "/meta/f/", x), MetaShape)
    requires Conforms(svc, PublicGet(c, "/gh/", x), AnyShape)
    ensures var c' := c.(config := c.config.(keys := k));
            && GetContent(c', x, svc) == GetContent(c, x, svc)
            && GetContentAsString(c', x, svc) == GetContentAsString(c, x, svc)
            && GetDocumentMeta(c', x, svc) == GetDocumentMeta(c, x, svc)
            && GetGithubContent(c', x, svc) == GetGithubContent(c, x, svc)
            && GetGithubContentAsString(c', x, svc) == GetGithubContentAsString(c, x, svc)
  {
  }
}

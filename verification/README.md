# jsonbank Go client: a Dafny model of its decision logic

This project models the core of the jsonbank Go SDK. The SDK is a client for a remote
JSON-document store. The model covers the part of it that makes decisions:

- which API key tier a request needs, and the headers a built request carries;
- how a transport outcome, a status code and a decoded body become either a value or one
  `{code, message}` error (`RequestError`);
- the per-instance session memory written by `Authenticate`;
- the document and folder operations: their local checks and the order of those checks, the
  endpoint and tier each one uses, and the create-or-fetch protocol. That protocol optimistically
  creates a resource and falls back to a lookup at the composed path when the service answers
  `"name.exists"`;
- the small helpers: host defaulting and URL derivation, path composition, error text, and the
  metadata record with its optional `folderId`.

The transport is a parameter: `Dispatch.Service` is a function from a built `Request` to a
`Response`. A response is either a transport failure or a status with the body, both as decoded
JSON and as raw text. A pure operation that builds no request gives the same answer for every
service, and this is how the model says "nothing was sent". The file system seen by
`UploadDocument` is also a parameter (`Documents.FileProbe`: missing, unreadable, or the file's
text). Go's `json.Valid` is modelled in part: leading whitespace and the character that opens a
value are spelled out, and the rest of the grammar is the uninterpreted constant
`Functions.JsonGrammar`. The
`InvalidJsonError` value is the uninterpreted constant `Errors.InvalidJsonError`, because its
Go declaration is not among the source files this model covers.

The modules follow the source files:

| module | file | source |
|---|---|---|
| `Wrappers` | wrappers.dfy | Option / Result for Go's `(value, *RequestError)` pairs |
| `JsonValue` | json.dfy | decoded JSON values (`any`) |
| `Errors` | errors.dfy | errors.go and the fixed errors used across the client |
| `Types` | types.dfy | types/response.go, types/body.go |
| `Functions` | functions.dfy | functions.go, plus `filepath.Base` |
| `Dispatch` | dispatch.dfy | instance.private.go |
| `Session` | session.dfy | the `memory` map of instance.auth.go |
| `Jsonbank` | jsonbank.dfy | jsonbank.go, the `Instance` of instance.go, `Authenticate` |
| `PublicReads` | public_reads.dfy | the keyless readers of instance.go |
| `Documents` | documents.dfy | document operations of instance.auth.go |
| `Folders` | folders.dfy | folder operations of instance.auth.go |
| `Compensation` | compensation.dfy | the create-or-fetch protocol and the pre-flight rules, against a service that holds a given resource |

`Jsonbank.Instance` is a class because the source updates its fields in place: `SetHost` updates
the urls and the host, and `Authenticate` updates the memory. The operations that only read the
instance are functions of its `Settings`, which are its config and its urls (`Instance.View()`).

Behaviour of the code that the model keeps, though a reader might expect otherwise:

- `makeRequest` and `makePublicRequest` always set `Content-Type: application/json`, with or
  without a body.
- The structured send mode decodes the body before it looks at the status. An undecodable body
  is therefore a `json_error` even on a non-200 response.
- `CreateDocument` reports `existing = true` (Go's `Exists`) even for a document it has just
  created. A first and a second `CreateDocumentIfNotExists` cannot be told apart by that flag
  (`Compensation.RepeatedCreateFindsSameDocument`). `CreateFolder` reports `false`.
- `getFolder` with statistics requires the `stats` object to be present. The source's type
  assertion panics otherwise, so its nil check cannot trigger.

## Model

| member | source | states |
|---|---|---|
| `Errors.Error` | errors.go:10-12 | the text is `[code]: message`: length `|code|+|message|+4`, starts with `[code]`, then `": "`, ends with the message |
| `Errors.ErrorKeepsMessage` | errors.go:10-12 | for a known code, the error text determines the error: formatting loses nothing |
| `Types.DataToDocumentMeta` | types/response.go:60-81 | id, path, project, name, createdAt, updatedAt and contentSize number/string are copied from the object; folderId is the field's string when present and non-null, else "" |
| `Types.MetaToData` | types/response.go:49-58 | the service's metadata object for a record fits the shape DataToDocumentMeta needs and converts back to the same record (round trip) |
| `Types.ToNewDocument` | instance.auth.go:146-153 | the created document's id, name, path, project and createdAt are the response's strings, and it is always flagged as existing |
| `Types.ToFolder` | instance.auth.go:370-388 | the folder fields are copied from the object; statistics are present iff they were requested, and then come from the `stats` object |
| `Types.FolderToData` | types/response.go:27-36 | the service's folder object converts back to the same Folder (round trip), with or without statistics |
| `Types.ProjectNames` | instance.auth.go:28-34 | the key's project names are the array's strings, one per item, in order |
| `Types.ToAuthenticatedData` | instance.auth.go:26-41 | the identity holds the response's authenticated flag, username, key title and project list |
| `Functions.MakeDocumentPath` | functions.go:11-17 | `project/name` without a folder, `project/folder/name` with one; starts with `project/`, ends with the name; the length is the sum of the parts and separators |
| `Functions.MakeFolderPath` | instance.auth.go:329 | `project/name` without a parent folder, `project/folder/name` with one: the path the fallback lookup of CreateFolderIfNotExists uses |
| `Functions.IsValidJsonString` | functions.go:20-22 | valid JSON text is not empty and has a character after its leading whitespace |
| `Functions.ValidTextOpensAValue` | functions.go:20-22 | in valid JSON text the first character after the leading whitespace opens a value |
| `Functions.SkipSpaceDropsOnlySpace` | functions.go:20-22 | every character skipped before the start of a value is JSON whitespace |
| `Functions.BlankSkipsToEmpty` | functions.go:20-22 | skipping the leading whitespace of whitespace-only text leaves nothing |
| `Functions.BlankIsInvalid` | functions.go:20-22 | empty or all-whitespace content is never valid JSON text |
| `Functions.TrimTrailingSlashes` | instance.auth.go:181 | the result is a prefix of the path, does not end in '/', and only slashes were removed |
| `Functions.LastElement` | instance.auth.go:181 | the result is the longest suffix without '/': it is the whole path or follows a '/', and it is non-empty when the path does not end in '/' |
| `Functions.Base` | instance.auth.go:181 | "." for the empty path, "/" for a path of slashes only, otherwise the non-empty part after the last '/' once trailing slashes are dropped |
| `Functions.BaseOfBareName` | instance.auth.go:180-182 | a file name without '/' is its own base name |
| `Functions.BaseIsAName` | instance.auth.go:180-182 | the base name used as a default document name is never empty and has no '/' unless it is "/" |
| `Functions.BaseOfJoin` | instance.auth.go:181 | the base name of `dir/name` is `name` |
| `Functions.LastElementOfJoin` | instance.auth.go:181 | the last element of `dir/name` is `name` |
| `Dispatch.HasKey` | instance.private.go:22-32 | "public" is usable iff the public key is non-empty, "private" iff the private key is; any other tier never is |
| `Dispatch.MakeRequest` | instance.private.go:35-46 | fails with bad_request "Public key is not set" exactly when there is no public key; otherwise the request carries the JSON content type and the public key, whatever the body |
| `Dispatch.MakePublicRequest` | instance.private.go:48-52 | never fails; the request carries only the JSON content type |
| `Dispatch.PublicRequestCarriesNoKey` | instance.private.go:48-52 | no header of a public request is a key header |
| `Dispatch.MakePrivateRequest` | instance.private.go:55-68 | the public key is checked first (its error wins when both are missing), then the private key; on success both key headers are attached |
| `Dispatch.PrivateExtendsKeyed` | instance.private.go:56-65 | a private request is the keyed request plus the private-key header |
| `Dispatch.DecodeObject` | instance.private.go:77-83 | an object decodes to its map, null to an empty map, a malformed body to the decoder's message; nothing else succeeds |
| `Dispatch.Classify` | instance.private.go:86-101 | a string `error` gives request_error with that text; an object `error` gives its code and message verbatim; anything else or none gives "Request was not successful" |
| `Dispatch.ClassifyExamples` | instance.private.go:86-101 | `{"error":"oops"}` gives (request_error, oops); `{"error":{code,message}}` gives (code, message); null or absent gives the generic error |
| `Dispatch.SendRequest` | instance.private.go:70-104 | a transport failure gives request_error first; a body that does not decode to an object (malformed, or a non-object value) gives json_error with the decoder's message whatever the status; a decodable non-200 reply gives the error `Classify` reads from its envelope; success iff status is exactly 200 and the body decodes, and then the decoded object is returned unchanged |
| `Dispatch.SendRequestAsText` | instance.private.go:107-149 | a transport failure gives request_error; a non-200 reply gives json_error if its body does not decode to an object, else the error `Classify` reads from its envelope; on 200 the raw text is returned unparsed, or request_error if it cannot be read; success only on 200 |
| `Dispatch.ModesAgreeOnFailure` | instance.private.go:107-138 | on a transport failure or a non-200 status, both modes fail with the same error |
| `Dispatch.TextModeSkipsDecoding` | instance.private.go:140-148 | on 200 with an undecodable body, the text mode returns the text and the structured mode a json_error |
| `Dispatch.ServiceCodesComeFromEnvelope` | instance.private.go:92-94 | any code other than request_error or json_error comes verbatim from the structured `error` of a decodable non-200 response |
| `Session.Remember` | instance.auth.go:23-43 | after a successful authenticate the memory is authenticated, consistent, holds the new username, and keeps every other entry |
| `Session.RememberOverwrites` | instance.auth.go:13-46 | a second successful authenticate replaces the first identity entirely |
| `Session.FreshMemoryIsAnonymous` | jsonbank.go:18 | empty memory is not authenticated and has username "" |
| `Jsonbank.Configured` | jsonbank.go:7-14 | an empty host becomes `https://api.jsonbank.io`, a non-empty host is kept, and the keys are kept as given |
| `Jsonbank.WithHost` | instance.go:17-21 | v1 is `host + "/v1"`, public is the host, the config records the host, and the keys are unchanged |
| `Jsonbank.WithHostLastWins` | instance.go:17-21 | setting a host twice is setting it once; only the last host counts |
| `Jsonbank.AuthenticateResult` | instance.auth.go:13-46 | authenticate fails exactly when the send fails, with that error; on success the returned identity (flag, username, key title, projects) is the one read from the response |
| `Jsonbank.CopyProjects` | instance.auth.go:28-34 | the append loop yields exactly the project names, in order |
| `Jsonbank.Instance.Init` | jsonbank.go:4-21 | host defaulted, keys kept, urls derived from the host, memory empty, so not authenticated and username "" |
| `Jsonbank.Instance.SetHost` | instance.go:17-21 | the settings become `WithHost(old settings, host)`; memory is unchanged |
| `Jsonbank.Instance.Authenticated` | instance.auth.go:49-51 | true iff the memory's "authenticated" entry is the flag true |
| `Jsonbank.Instance.GetUsername` | instance.auth.go:54-59 | "" when not authenticated, otherwise the stored identity's username |
| `Jsonbank.Instance.Authenticate` | instance.auth.go:13-46 | returns the result of the authenticate call; only a success writes the memory (flag and identity), and then `Authenticated()` holds and `GetUsername()` is the new username; a failure leaves the memory as it was |
| `Jsonbank.InitWithoutKeys` | jsonbank.go:24-26 | the default host, derived urls, neither key tier usable, and empty memory, so not authenticated and username "" |
| `PublicReads.GetContent` | instance.go:24-37 | the answer to a keyless GET of `<public>/f/<idOrPath>`, passed through |
| `PublicReads.GetContentAsString` | instance.go:40-54 | the text answer to the same keyless GET |
| `PublicReads.GetDocumentMeta` | instance.go:57-72 | a keyless GET of `<public>/meta/f/<idOrPath>`; an error is passed through, a success is converted to metadata |
| `PublicReads.GetGithubContent` | instance.go:75-88 | the answer to a keyless GET of `<public>/gh/<path>` |
| `PublicReads.GetGithubContentAsString` | instance.go:91-105 | the text answer to the same keyless GET |
| `PublicReads.PublicReadsIgnoreKeys` | instance.go:24-105 | every public read gives the same answer whatever the keys, so none fails for lack of a key |
| `Documents.GetOwnContent` | instance.auth.go:62-75 | no public key gives the public-key error; otherwise the answer to a public-tier GET of `v1/file/<idOrPath>` |
| `Documents.GetOwnContentAsString` | instance.auth.go:78-92 | the same request, answered as text |
| `Documents.GetOwnDocumentMeta` | instance.auth.go:95-110 | a public-tier GET of `v1/meta/file/<idOrPath>`; an error is passed through, a success is converted to metadata |
| `Documents.HasOwnDocument` | instance.auth.go:221-224 | true iff the metadata lookup succeeds, so false without a public key |
| `Documents.CreateDocumentPreflight` | instance.auth.go:115-128 | the local checks pass iff project and name are non-empty and the content is JSON text; an empty project is reported before an empty name |
| `Documents.CreateDocument` | instance.auth.go:113-154 | empty project, then empty name, then invalid JSON, then key tiers, all before a request; then a private-tier POST to `v1/project/<project>/document`; a success copies id/name/path/project/createdAt and claims `existing` |
| `Documents.UploadTarget` | instance.auth.go:179-190 | the delegated document keeps project, folder and content; an empty name becomes the file's base name, so the name is never empty |
| `Documents.UploadDocument` | instance.auth.go:157-191 | empty project, then missing file, then unreadable file, then invalid JSON; otherwise exactly CreateDocument on the upload target, which passes all of CreateDocument's local checks |
| `Documents.CreateDocumentIfNotExists` | instance.auth.go:194-218 | any outcome of the create other than a "name.exists" error is passed on; on "name.exists" the metadata lookup at the composed path decides: its error, or its id/path/project/createdAt with the requested name and `existing` |
| `Documents.UpdateOwnDocument` | instance.auth.go:227-256 | invalid JSON is refused before the key tiers; then a private-tier POST of `{content}` to `v1/file/<idOrPath>`, whose `changed` flag is returned |
| `Documents.DeleteDocument` | instance.auth.go:259-277 | key-tier errors, else a private-tier DELETE of `v1/file/<idOrPath>`, whose `deleted` flag is returned |
| `Folders.FolderUrl` | instance.auth.go:348-353 | `v1/folder/<idOrPath>`, with `?stats=true` appended iff statistics are asked for |
| `Folders.FetchFolder` | instance.auth.go:347-392 | a public-tier GET of the folder url; an error is passed through; a found folder has statistics iff they were asked for |
| `Folders.GetFolder` | instance.auth.go:395-397 | the lookup without statistics; a found folder has none |
| `Folders.GetFolderWithStats` | instance.auth.go:400-402 | the lookup with statistics; a found folder has them |
| `Folders.CreateFolder` | instance.auth.go:280-320 | empty project, then empty name, then key tiers, before a request; then a private-tier POST to `v1/project/<project>/folder`; a success is never flagged as existing |
| `Folders.CreateFolderIfNotExists` | instance.auth.go:324-344 | any outcome other than "name.exists" is passed on; on "name.exists" the folder at the composed path is returned as existing, or the lookup's error; the flag of a success is set iff the create met the conflict |
| `Compensation.CreateDocumentPreflightSendsNothing` | instance.auth.go:113-137 | a create failing a local check or lacking a key fails identically for every service |
| `Compensation.WritesNeedThePrivateKey` | instance.private.go:55-68 | without a private key, CreateDocument, CreateFolder, UpdateOwnDocument and DeleteDocument all fail with bad_request once their local checks pass |
| `Compensation.InvalidContentIsRefused` | instance.auth.go:126-128 | content that is not JSON text is refused with InvalidJsonError by CreateDocument, UploadDocument and UpdateOwnDocument |
| `Compensation.StoredDocumentIsFound` | instance.auth.go:95-110 | against a service holding a document at a path, the lookup of that path yields its metadata, and the document exists |
| `Compensation.MissingDocumentIsAbsent` | instance.auth.go:221-224 | a lookup answered with "notFound" gives that error, and the document does not exist |
| `Compensation.ConflictResolvesToStoredDocument` | instance.auth.go:194-211 | a create refused as "name.exists" resolves to the document the service holds at the composed path, under the requested name, flagged as existing |
| `Compensation.FreshCreateIsPassedOn` | instance.auth.go:194-218 | a create the service accepts is returned as is, with no fallback lookup, so no lookup needs to be answered |
| `Compensation.RepeatedCreateFindsSameDocument` | instance.auth.go:146-211 | a create followed by a conflicting second create report the same id, and both are flagged as existing |
| `Compensation.ConflictResolvesToFolder` | instance.auth.go:324-337 | a folder create refused as "name.exists" resolves to the folder at the composed path, flagged as existing |

## Left out

- HTTP transport, body encoding and decoding (`http.DefaultClient.Do`, `http.NewRequest`, `io.ReadAll`, `json.NewDecoder`, `json.Marshal`): they are replaced by the `Service` parameter and by JSON values for bodies. `http.NewRequest` is assumed to succeed.
- Header name canonicalisation by `Header.Add`: header names are kept as the source writes them. HTTP header names are case-insensitive.
- `json.Valid`: only leading whitespace and the first character of a value are modelled; the rest of the JSON grammar is the uninterpreted `Functions.JsonGrammar`.
- `InvalidJsonError`, `CreateFolderBody`, `UploadDocumentBody` and `MakeFolderPath` have Go declarations that are not among the source files this model covers. The bodies have the fields the operations read. The folder path follows the document path rule.
- The file system of `UploadDocument` (`os.Stat`, `os.ReadFile`) is the `FileProbe` parameter. `filepath.Base` is defined for Unix paths only.
- Float64 numbers (`ContentSize.Number`, `FolderStats`) are kept as opaque bit patterns; there is no arithmetic on them.
- Go panics from unchecked type assertions are preconditions: `Dispatch.Conforms` requires the error envelope and the success fields each operation reads. A panic inside `Authenticate` after the flag is written is not modelled.
- Jsonbank.Instance.Authenticate: requires a public key. The source ignores the `makeRequest` error, and a nil request then reaches the transport.
- A JSON `null` body decodes to Go's nil map. Reading it behaves like an empty map, and that is how it is modelled.
- Concurrent use of an instance's memory: the source has no locking and the model is sequential.
- main.go (an older copy of the client) and the live-server tests are not part of this model.

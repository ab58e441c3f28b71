/** The action layer of lib/actions.ts: one shared GraphQL client whose headers
    every exported function sets before its request, the base64 data-URL test,
    and the upload-then-mutate policy of project creation and update.

    The transport is abstract: what `uploadImage` and the GraphQL request settle
    to is given to each operation as an input (`Upload`, `Reply`), and the client
    records every request it is asked to send together with the headers in force. */
module Actions {
  import opened CommonTypes

  // ---------------------------------------------------------------------------
  // isBase64DataURL: /^data:image\/[a-z]+;base64,/
  // ---------------------------------------------------------------------------

  const DataImagePrefix: string := "data:image/"
  const Base64Marker: string := ";base64,"

  predicate IsLower(c: char)
  {
    'a' <= c <= 'z'
  }

  /** Length of the longest prefix of `s` made of lower-case ASCII letters. */
  function LowerRun(s: string): (k: nat)
    ensures k <= |s|
    ensures forall i :: 0 <= i < k ==> IsLower(s[i])
    ensures k < |s| ==> !IsLower(s[k])
  {
    if s != [] && IsLower(s[0]) then 1 + LowerRun(s[1..]) else 0
  }

  /** The anchored regular-expression test. `[a-z]+` is followed by `;`, which is
      not a letter, so the only run it can match is the longest one. */
  predicate IsBase64DataURL(s: string)
  {
    |s| >= |DataImagePrefix| && s[..|DataImagePrefix|] == DataImagePrefix &&
    var rest := s[|DataImagePrefix|..];
    var k := LowerRun(rest);
    k >= 1 && k + |Base64Marker| <= |rest| && rest[k..k + |Base64Marker|] == Base64Marker
  }

  /** The expression matches at position 0 with a media subtype of `k` letters. */
  ghost predicate MatchesWithSubtype(s: string, k: nat)
  {
    && 1 <= k
    && |DataImagePrefix| + k + |Base64Marker| <= |s|
    && s[..|DataImagePrefix|] == DataImagePrefix
    && (forall i :: |DataImagePrefix| <= i < |DataImagePrefix| + k ==> IsLower(s[i]))
    && s[|DataImagePrefix| + k..|DataImagePrefix| + k + |Base64Marker|] == Base64Marker
  }

  /** `IsBase64DataURL` holds exactly when `s` is `data:image/`, one or more
      letters a-z, then `;base64,`, followed by anything. */
  lemma IsBase64DataURLCorrect(s: string)
    ensures IsBase64DataURL(s) <==> exists k :: MatchesWithSubtype(s, k)
  {
    var p := |DataImagePrefix|;
    if IsBase64DataURL(s) {
      var rest := s[p..];
      var k := LowerRun(rest);
      forall i | p <= i < p + k ensures IsLower(s[i]) {
        assert s[i] == rest[i - p];
      }
      var inS, inRest := s[p + k..p + k + |Base64Marker|], rest[k..k + |Base64Marker|];
      forall j | 0 <= j < |Base64Marker| ensures inS[j] == inRest[j] {
        assert inS[j] == s[p + k + j] && inRest[j] == rest[k + j];
      }
      assert inS == inRest;
      assert MatchesWithSubtype(s, k);
    }
    if k: nat :| MatchesWithSubtype(s, k) {
      var rest := s[p..];
      forall i | 0 <= i < k ensures IsLower(rest[i]) {
        assert rest[i] == s[p + i];
      }
      assert rest[k] == s[p + k] == ';';
      LowerRunExact(rest, k);
      var inRest, inS := rest[k..k + |Base64Marker|], s[p + k..p + k + |Base64Marker|];
      forall j | 0 <= j < |Base64Marker| ensures inRest[j] == inS[j] {
        assert inRest[j] == rest[k + j] && inS[j] == s[p + k + j];
      }
      assert inRest == inS;
    }
  }

  /** A run of `k` letters followed by a non-letter has length exactly `k`. */
  lemma {:induction false} LowerRunExact(t: string, k: nat)
    requires k < |t| && !IsLower(t[k])
    requires forall i :: 0 <= i < k ==> IsLower(t[i])
    ensures LowerRun(t) == k
  {
    if k > 0 {
      LowerRunExact(t[1..], k - 1);
    }
  }

  /** A lower-case subtype is accepted. */
  lemma AcceptsLowerCaseSubtype()
    ensures IsBase64DataURL("data:image/png;base64,iVBOR")
  {
    var s := "data:image/png;base64,iVBOR";
    var rest := s[11..];
    assert s[..11] == DataImagePrefix;
    assert rest == "png;base64,iVBOR";
    LowerRunExact(rest, 3);
    assert rest[3..11] == Base64Marker;
  }

  /** An upper-case subtype is rejected. */
  lemma RejectsUpperCaseSubtype()
    ensures !IsBase64DataURL("data:image/PNG;base64,iVBOR")
  {
    var s := "data:image/PNG;base64,iVBOR";
    assert s[11..][0] == 'P';
  }

  /** A subtype with a character outside a-z, such as `svg+xml`, is rejected. */
  lemma RejectsSvgXmlSubtype()
    ensures !IsBase64DataURL("data:image/svg+xml;base64,PHN2")
  {
    var s := "data:image/svg+xml;base64,PHN2";
    var rest := s[11..];
    assert rest == "svg+xml;base64,PHN2";
    LowerRunExact(rest, 3);
    assert rest[3..11][0] == '+';
  }

  // ---------------------------------------------------------------------------
  // Requests, headers and what the transport settles to
  // ---------------------------------------------------------------------------

  const ApiKeyHeader: string := "x-api-key"
  const AuthorizationHeader: string := "Authorization"

  function Bearer(token: string): string
  {
    "Bearer " + token
  }

  /** What `uploadImage` settles to: a thrown error, or the parsed JSON body,
      whose `url` may be absent. */
  datatype Upload = UploadFailed(reason: string) | Uploaded(url: Option<string>)

  /** What one GraphQL request settles to. */
  datatype Reply = Answer(data: string) | Failure(reason: string)

  /** What an exported function's promise settles to; `Resolved(None)` is `undefined`. */
  datatype Settled = Resolved(value: Option<string>) | Rejected(reason: string)

  /** The input of the create mutation: the form spread, then `createdBy.link`. */
  datatype CreateProjectInput = CreateProjectInput(fields: ProjectForm, createdByLink: Option<string>)

  /** One GraphQL query or mutation with its variables. */
  datatype Operation =
    | UserQuery(email: string)
    | CreateUserMutation(name: string, email: string, avatarUrl: string)
    | ProjectsQuery(category: Option<string>, endCursor: Option<string>)
    | ProjectByIdQuery(projectId: string)
    | ProjectsOfUserQuery(userId: string, last: Option<int>)
    | CreateProjectMutation(input: CreateProjectInput)
    | UpdateProjectMutation(id: Option<string>, updated: ProjectForm)
    | DeleteProjectMutation(projectId: string)

  /** A request as the client sent it: the operation and the headers in force. */
  datatype Sent = Sent(op: Operation, headers: map<string, string>)

  /** The operations sent with the bearer token; the others, `createUser`
      included, are sent after setting the API key. */
  predicate UsesBearer(op: Operation)
  {
    op.CreateProjectMutation? || op.UpdateProjectMutation? || op.DeleteProjectMutation?
  }

  /** The header an exported function sets before sending `op`. */
  function CredentialFor(op: Operation, apiKey: string, token: string): (h: (string, string))
    ensures UsesBearer(op) ==> h == (AuthorizationHeader, "Bearer " + token)
    ensures !UsesBearer(op) ==> h == (ApiKeyHeader, apiKey)
  {
    if UsesBearer(op) then (AuthorizationHeader, Bearer(token)) else (ApiKeyHeader, apiKey)
  }

  /** `makeGraphqlRequest`: the promise resolves to the data or rejects with the
      transport's error unchanged. */
  function Settle(reply: Reply): (r: Settled)
    ensures r.Resolved? <==> reply.Answer?
    ensures reply.Answer? ==> r.value == Some(reply.data)
    ensures reply.Failure? ==> r.reason == reply.reason
  {
    match reply
    case Answer(data) => Resolved(Some(data))
    case Failure(reason) => Rejected(reason)
  }

  /** The shared GraphQL client: a header map that `setHeader` updates in place
      and keeps between calls, and the log of the requests sent through it. */
  class Client {
    const apiKey: string
    var headers: map<string, string>
    var sent: seq<Sent>

    constructor (apiKey: string)
      ensures this.apiKey == apiKey && headers == map[] && sent == []
    {
      this.apiKey := apiKey;
      headers := map[];
      sent := [];
    }

    method SetHeader(name: string, value: string)
      modifies this
      ensures headers == old(headers)[name := value]
      ensures sent == old(sent)
    {
      headers := headers[name := value];
    }

    /** `makeGraphqlRequest`: send `op` with the current headers. */
    method Request(op: Operation, reply: Reply) returns (r: Settled)
      modifies this
      ensures sent == old(sent) + [Sent(op, old(headers))]
      ensures headers == old(headers)
      ensures r == Settle(reply)
    {
      sent := sent + [Sent(op, headers)];
      r := Settle(reply);
    }
  }

  /** The client's state after setting `header` and then sending `op`. */
  ghost predicate SentWith(
    c: Client, oldHeaders: map<string, string>, oldSent: seq<Sent>, header: (string, string), op: Operation)
    reads c
  {
    c.headers == oldHeaders[header.0 := header.1] && c.sent == oldSent + [Sent(op, c.headers)]
  }

  /** Reads carry no bearer token; `CredentialFor` ignores the token for them. */
  const NoToken: string := ""

  /** The client's state after `op` was sent under the credential policy: the
      header `CredentialFor` names for `op` was set, then `op` was sent. */
  ghost predicate SentUnderPolicy(c: Client, oldHeaders: map<string, string>, oldSent: seq<Sent>, op: Operation, token: string)
    reads c
  {
    SentWith(c, oldHeaders, oldSent, CredentialFor(op, c.apiKey, token), op)
  }

  /** A request sent under the policy is appended to the log, and carries the
      bearer token when it creates, updates or deletes a project, and the API key
      otherwise. */
  lemma SentCarriesCredential(
    c: Client, oldHeaders: map<string, string>, oldSent: seq<Sent>, op: Operation, token: string)
    requires SentUnderPolicy(c, oldHeaders, oldSent, op, token)
    ensures |c.sent| == |oldSent| + 1 && c.sent[..|oldSent|] == oldSent && c.sent[|oldSent|].op == op
    ensures UsesBearer(op) ==>
              AuthorizationHeader in c.sent[|oldSent|].headers && c.sent[|oldSent|].headers[AuthorizationHeader] == "Bearer " + token
    ensures !UsesBearer(op) ==>
              ApiKeyHeader in c.sent[|oldSent|].headers && c.sent[|oldSent|].headers[ApiKeyHeader] == c.apiKey
  {
    assert (oldSent + [Sent(op, c.headers)])[..|oldSent|] == oldSent;
  }

  // ---------------------------------------------------------------------------
  // Read paths and the user and delete mutations
  // ---------------------------------------------------------------------------

  method GetUser(client: Client, email: string, reply: Reply) returns (r: Settled)
    modifies client
    ensures SentUnderPolicy(client, old(client.headers), old(client.sent), UserQuery(email), NoToken)
    ensures r == Settle(reply)
  {
    client.SetHeader(ApiKeyHeader, client.apiKey);
    r := client.Request(UserQuery(email), reply);
  }

  method CreateUser(client: Client, name: string, email: string, avatarUrl: string, reply: Reply)
    returns (r: Settled)
    modifies client
    ensures SentUnderPolicy(client, old(client.headers), old(client.sent), CreateUserMutation(name, email, avatarUrl), NoToken)
    ensures r == Settle(reply)
  {
    client.SetHeader(ApiKeyHeader, client.apiKey);
    r := client.Request(CreateUserMutation(name, email, avatarUrl), reply);
  }

  method FetchAllProject(client: Client, category: Option<string>, endCursor: Option<string>, reply: Reply)
    returns (r: Settled)
    modifies client
    ensures SentUnderPolicy(client, old(client.headers), old(client.sent), ProjectsQuery(category, endCursor), NoToken)
    ensures r == Settle(reply)
  {
    client.SetHeader(ApiKeyHeader, client.apiKey);
    r := client.Request(ProjectsQuery(category, endCursor), reply);
  }

  method GetProjectDetail(client: Client, id: string, reply: Reply) returns (r: Settled)
    modifies client
    ensures SentUnderPolicy(client, old(client.headers), old(client.sent), ProjectByIdQuery(id), NoToken)
    ensures r == Settle(reply)
  {
    client.SetHeader(ApiKeyHeader, client.apiKey);
    r := client.Request(ProjectByIdQuery(id), reply);
  }

  method GetUserProject(client: Client, id: string, last: Option<int>, reply: Reply) returns (r: Settled)
    modifies client
    ensures SentUnderPolicy(client, old(client.headers), old(client.sent), ProjectsOfUserQuery(id, last), NoToken)
    ensures r == Settle(reply)
  {
    client.SetHeader(ApiKeyHeader, client.apiKey);
    r := client.Request(ProjectsOfUserQuery(id, last), reply);
  }

  method DeleteProject(client: Client, id: string, token: string, reply: Reply) returns (r: Settled)
    modifies client
    ensures SentUnderPolicy(client, old(client.headers), old(client.sent), DeleteProjectMutation(id), token)
    ensures r == Settle(reply)
  {
    client.SetHeader(AuthorizationHeader, Bearer(token));
    r := client.Request(DeleteProjectMutation(id), reply);
  }

  method GetProjectDetails(client: Client, id: string, reply: Reply) returns (r: Settled)
    modifies client
    ensures SentUnderPolicy(client, old(client.headers), old(client.sent), ProjectByIdQuery(id), NoToken)
    ensures r == Settle(reply)
  {
    client.SetHeader(ApiKeyHeader, client.apiKey);
    r := client.Request(ProjectByIdQuery(id), reply);
  }

  /** The headers are shared state: a read sent after a write on the same client
      still carries the write's bearer token beside the API key. */
  method WriteThenRead(client: Client, id: string, token: string, email: string, r1: Reply, r2: Reply)
    modifies client
    ensures |client.sent| == |old(client.sent)| + 2
    ensures client.sent[|client.sent| - 1].op == UserQuery(email)
    ensures AuthorizationHeader in client.sent[|client.sent| - 1].headers
    ensures client.sent[|client.sent| - 1].headers[AuthorizationHeader] == "Bearer " + token
    ensures ApiKeyHeader in client.sent[|client.sent| - 1].headers
    ensures client.sent[|client.sent| - 1].headers[ApiKeyHeader] == client.apiKey
  {
    var _ := DeleteProject(client, id, token, r1);
    var _ := GetUser(client, email, r2);
  }

  // ---------------------------------------------------------------------------
  // createNewProject
  // ---------------------------------------------------------------------------

  /** The mutation `createNewProject` issues for a given upload result, if any. */
  function CreateCall(form: ProjectForm, creatorId: Option<string>, upload: Upload): (call: Option<Operation>)
    ensures call.Some? <==> upload.Uploaded? && Truthy(upload.url)
    ensures call.Some? ==> call.value.CreateProjectMutation?
    ensures call.Some? ==> call.value.input.fields.image == upload.url.value
    ensures call.Some? ==> forall f :: f != Image ==> call.value.input.fields.Get(f) == form.Get(f)
    ensures call.Some? ==> call.value.input.createdByLink == creatorId
  {
    match upload
    case UploadFailed(_) => None
    case Uploaded(url) =>
      if Truthy(url) then Some(CreateProjectMutation(CreateProjectInput(form.With(Image, url.value), creatorId)))
      else None
  }

  /** What the promise of `createNewProject` settles to. */
  function CreateOutcome(upload: Upload, reply: Reply): (r: Settled)
    ensures upload.UploadFailed? ==> r == Rejected(upload.reason)
    ensures upload.Uploaded? && !Truthy(upload.url) ==> r == Resolved(None)
    ensures upload.Uploaded? && Truthy(upload.url) ==> r == Settle(reply)
  {
    match upload
    case UploadFailed(reason) => Rejected(reason)
    case Uploaded(url) => if Truthy(url) then Settle(reply) else Resolved(None)
  }

  /** `createNewProject`: upload the image once, and only when the upload yields a
      url set the bearer token and send the create mutation. `uploads` lists the
      paths handed to `uploadImage`. */
  method CreateNewProject(
    client: Client, form: ProjectForm, creatorId: Option<string>, token: string, upload: Upload, reply: Reply)
    returns (r: Settled, uploads: seq<string>)
    modifies client
    ensures uploads == [form.image]
    ensures r == CreateOutcome(upload, reply)
    ensures CreateCall(form, creatorId, upload).None? ==>
              client.headers == old(client.headers) && client.sent == old(client.sent)
    ensures CreateCall(form, creatorId, upload).Some? ==>
              SentUnderPolicy(client, old(client.headers), old(client.sent), CreateCall(form, creatorId, upload).value, token)
  {
    uploads := [form.image];
    match upload {
      case UploadFailed(reason) =>
        r := Rejected(reason);
      case Uploaded(url) =>
        if Truthy(url) {
          client.SetHeader(AuthorizationHeader, Bearer(token));
          var input := CreateProjectInput(form.(image := url.value), creatorId);
          r := client.Request(CreateProjectMutation(input), reply);
        } else {
          r := Resolved(None);
        }
    }
  }

  // ---------------------------------------------------------------------------
  // updateProject
  // ---------------------------------------------------------------------------

  /** The mutation `updateProject` issues; `None` only when the upload it started
      rejected. */
  function UpdateCall(form: ProjectForm, projectId: Option<string>, upload: Upload): (call: Option<Operation>)
    ensures call.None? <==> IsBase64DataURL(form.image) && upload.UploadFailed?
    ensures call.Some? ==> call.value.UpdateProjectMutation? && call.value.id == projectId
    ensures !IsBase64DataURL(form.image) ==> call == Some(UpdateProjectMutation(projectId, form))
    ensures IsBase64DataURL(form.image) && upload.Uploaded? && !Truthy(upload.url) ==>
              call == Some(UpdateProjectMutation(projectId, form))
    ensures IsBase64DataURL(form.image) && upload.Uploaded? && Truthy(upload.url) ==>
              && call.value.updated.image == upload.url.value
              && forall f :: f != Image ==> call.value.updated.Get(f) == form.Get(f)
  {
    if !IsBase64DataURL(form.image) then Some(UpdateProjectMutation(projectId, form))
    else match upload
      case UploadFailed(_) => None
      case Uploaded(url) =>
        Some(UpdateProjectMutation(projectId, if Truthy(url) then form.With(Image, url.value) else form))
  }

  /** What the promise of `updateProject` settles to. */
  function UpdateOutcome(form: ProjectForm, upload: Upload, reply: Reply): (r: Settled)
    ensures IsBase64DataURL(form.image) && upload.UploadFailed? ==> r == Rejected(upload.reason)
    ensures !(IsBase64DataURL(form.image) && upload.UploadFailed?) ==> r == Settle(reply)
  {
    if IsBase64DataURL(form.image) && upload.UploadFailed? then Rejected(upload.reason) else Settle(reply)
  }

  /** The paths `updateProject` hands to `uploadImage`. */
  function UpdateUploads(form: ProjectForm): (uploads: seq<string>)
    ensures |uploads| <= 1
    ensures uploads == [] <==> !IsBase64DataURL(form.image)
    ensures uploads != [] ==> uploads[0] == form.image
  {
    if IsBase64DataURL(form.image) then [form.image] else []
  }

  /** `updateProject`: start from a copy of the form, replace its image by the
      uploaded url when the image is a base64 data URL and the upload yields a
      url, then set the bearer token and send the update mutation. The mutation
      is sent unless the upload it started rejects, whatever the upload's JSON
      says. */
  method UpdateProject(
    client: Client, form: ProjectForm, projectId: Option<string>, token: string, upload: Upload, reply: Reply)
    returns (r: Settled, uploads: seq<string>)
    modifies client
    ensures uploads == UpdateUploads(form)
    ensures r == UpdateOutcome(form, upload, reply)
    ensures UpdateCall(form, projectId, upload).None? ==>
              client.headers == old(client.headers) && client.sent == old(client.sent)
    ensures UpdateCall(form, projectId, upload).Some? ==>
              SentUnderPolicy(client, old(client.headers), old(client.sent), UpdateCall(form, projectId, upload).value, token)
  {
    var updatedForm := form;
    uploads := [];
    var isUploadingNewImage := IsBase64DataURL(form.image);
    if isUploadingNewImage {
      uploads := [form.image];
      match upload {
        case UploadFailed(reason) =>
          r := Rejected(reason);
          return;
        case Uploaded(url) =>
          if Truthy(url) {
            updatedForm := updatedForm.(image := url.value);
          }
      }
    }
    client.SetHeader(AuthorizationHeader, Bearer(token));
    r := client.Request(UpdateProjectMutation(projectId, updatedForm), reply);
  }

  // ---------------------------------------------------------------------------
  // Properties of the two write paths
  // ---------------------------------------------------------------------------

  /** The image the create mutation carries is always the upload's url, never
      the form's own image; the update mutation may carry the form's base64 image
      when the upload returns no url. */
  lemma UpdateMaySendDataUrl(form: ProjectForm, projectId: Option<string>)
    requires IsBase64DataURL(form.image)
    ensures UpdateCall(form, projectId, Uploaded(None)).value.updated.image == form.image
    ensures CreateCall(form, None, Uploaded(None)).None?
  {
  }

  /** Re-submitting an edited form after a successful upload uploads nothing more
      and sends the same input again, unless the hosted url is itself a data URL. */
  lemma {:induction false} UpdateIdempotent(form: ProjectForm, projectId: Option<string>, url: string, again: Upload)
    requires IsBase64DataURL(form.image) && url != "" && !IsBase64DataURL(url)
    ensures var first := UpdateCall(form, projectId, Uploaded(Some(url))).value.updated;
            && UpdateUploads(first) == []
            && UpdateCall(first, projectId, again) == Some(UpdateProjectMutation(projectId, first))
  {
  }
}

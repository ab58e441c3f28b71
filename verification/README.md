# flexibble: project form, pagination and data actions in Dafny

This project models the core of flexibble, a Next.js showcase for developer projects. The core has three parts:

- **The data actions of `lib/actions.ts`.** One GraphQL client is shared by every exported function, and each function sets a header on it before it sends its request:
  - the reads and `createUser` set the API key;
  - the writes set a bearer token.

  `createNewProject` uploads the image and sends its mutation only when the upload yields a url. `updateProject` re-uploads the image only when it is a base64 `data:image/…` URL, and it sends its mutation unless the upload it started rejects, whatever the upload's JSON says.
- **The pagination control of `components/LoadMore.tsx`.** It decides which buttons it shows. Pressing one rewrites the cursor parameters of the current query with `URLSearchParams.delete`/`set` and pushes `pathname?query`.
- **The form component of `components/ProjectForm.tsx`.** It covers:
  - the initial form, taken from the project being edited;
  - the single-field merge;
  - the MIME gate on the image picker;
  - the submit handler with its `isSubmitting` flag;
  - the button wording.

The modules are:

- `CommonTypes` (`common_types.dfy`): `Option`, JavaScript truthiness of an optional string, and the `ProjectForm` and `Project` records.
- `Actions` (`actions.dfy`): the shared client as a class, with a header map that `setHeader` updates in place and a log of sent requests.
  - The exported functions are methods on that client.
  - The mutations `createNewProject` and `updateProject` send are specified by the functions `CreateCall` and `UpdateCall`.
  - The `isBase64DataURL` regular expression is a predicate, proved equal to its regex-shaped definition.
- `UrlEncoded` (`url_encoded.dfy`): the application/x-www-form-urlencoded serializer of the WHATWG URL Standard (section 5.2), which `URLSearchParams.toString()` runs. A reference parser comes with it, and two round trips are proved: decoding undoes percent-encoding, and parsing undoes serialization.
- `QueryParams` (`query_params.dfy`): `URLSearchParams` as an object over an ordered pair list, with `delete`, `set` and `toString` as loops. Each loop is proved against a recursive definition of section 6.2 of the same standard.
- `LoadMore` (`load_more.dfy`): `handleNavigation` and the buttons shown.
- `ProjectFormComponent` (`project_form.dfy`): the component state as a class, the order of the handlers' effects, and the button.

Transport results are inputs of the operations that await them:

- the GraphQL reply (`Reply`);
- the upload's JSON (`Upload`);
- the token fetch (`TokenReply`).

`alert`, `console.log`, `router.push`, the start of a file read and the flag updates are recorded in order as `Effect`s. `project?.id` and `session?.user?.id` are `Option<string>`, which models a possibly `undefined` value.

The image check follows the code. `handleChangeImage` accepts any MIME type that *contains* `image` (`file.type.includes("image")`), not only types that start with `image/`. `ProjectFormComponent.IsImageFile` is that containment test.

## Model

| member | source | states |
|---|---|---|
| CommonTypes.ProjectForm.With | components/ProjectForm.tsx:56-58 | Setting one field gives it the new value and leaves every other field as it was. |
| Actions.IsBase64DataURLCorrect | lib/actions.ts:97-100 | The base64 test holds exactly when the string starts with `data:image/`, then one or more lower-case ASCII letters, then `;base64,`. |
| Actions.LowerRun | lib/actions.ts:98 | The run of `[a-z]` at the start of a string is all lower case and is followed by a non-lower-case character or the end. |
| Actions.AcceptsLowerCaseSubtype | lib/actions.ts:97-100 | `data:image/png;base64,…` is recognised as a base64 image. |
| Actions.RejectsUpperCaseSubtype | lib/actions.ts:97-100 | An upper-case subtype such as `data:image/PNG;base64,…` is not recognised. |
| Actions.RejectsSvgXmlSubtype | lib/actions.ts:97-100 | `data:image/svg+xml;base64,…` is not recognised, so it is never re-uploaded. |
| Actions.CredentialFor | lib/actions.ts:37-160 | The credential policy: create, update and delete mutations set `Authorization: Bearer <token>`; every other request sets `x-api-key`. Every exported method's contract sends its request under this policy (`SentUnderPolicy`). |
| Actions.SentCarriesCredential | lib/actions.ts:37-160 | A request sent under the policy is appended to the client's log, keeping the earlier entries. A create, update or delete carries `Authorization: Bearer <token>`; any other request carries `x-api-key` with the client's API key. |
| Actions.Settle | lib/actions.ts:29-35 | A request resolves to the reply's data exactly when the transport answers, and otherwise rejects with the transport's error unchanged. |
| Actions.Client.constructor | lib/actions.ts:27 | The client starts with no headers and no requests sent. |
| Actions.Client.SetHeader | lib/actions.ts:38 | Setting a header updates that one entry of the shared map and sends nothing. |
| Actions.Client.Request | lib/actions.ts:29-35 | A request is logged with the headers in force at that moment, the headers stay as they were, and the result is the settled reply. |
| Actions.GetUser | lib/actions.ts:37-40 | Sets the header `CredentialFor` names (the API key), then sends the user query with the updated headers. |
| Actions.CreateUser | lib/actions.ts:42-52 | Sets the API key, then sends the create-user mutation with name, email and avatar url. |
| Actions.FetchAllProject | lib/actions.ts:134-140 | Sets the API key, then sends the projects query with the optional category and end cursor. |
| Actions.GetProjectDetail | lib/actions.ts:142-145 | Sets the API key, then sends the project-by-id query. |
| Actions.GetUserProject | lib/actions.ts:147-150 | Sets the API key, then sends the projects-of-user query with the optional `last`. |
| Actions.DeleteProject | lib/actions.ts:152-155 | Sets the header `CredentialFor` names (the bearer token), then sends the delete mutation. |
| Actions.GetProjectDetails | lib/actions.ts:157-160 | Same request and headers as `getProjectDetail`. |
| Actions.WriteThenRead | lib/actions.ts:37-40 | After a delete and then a user query on the same client, the query is sent carrying both the bearer token and the API key, because headers persist between calls. |
| Actions.CreateCall | lib/actions.ts:73-89 | A create mutation is sent exactly when the upload yields a truthy url. Its input is the form with the image replaced by that url, every other field kept, and `createdBy.link` set to the creator id. |
| Actions.CreateOutcome | lib/actions.ts:68-90 | A rejected upload rejects the call; an upload without a url resolves to `undefined` without a request; otherwise the call settles as the mutation's request does: to its data, or rejected with its error unchanged. |
| Actions.CreateNewProject | lib/actions.ts:68-90 | Uploads the form's image exactly once. Without a mutation the client is untouched; with one, the header `CredentialFor` names (the bearer token) is set and the mutation sent. The result is `CreateOutcome`. |
| Actions.UpdateCall | lib/actions.ts:102-121 | No mutation only when a base64 image's upload rejects. The mutation's id is the project id. A non-base64 image, or an upload without a url, sends the form unchanged; a url replaces only the image. |
| Actions.UpdateOutcome | lib/actions.ts:92-122 | A rejected upload of a base64 image rejects the call with the upload's error; otherwise the call settles as the mutation's request does: to its data, or rejected with its error unchanged. |
| Actions.UpdateUploads | lib/actions.ts:104-107 | The image is uploaded once when it is a base64 data URL and never otherwise. |
| Actions.UpdateProject | lib/actions.ts:92-122 | Works on a copy of the form, uploads as `UpdateUploads` says, and leaves the client untouched without a mutation. With a mutation, it sets the header `CredentialFor` names (the bearer token) and sends it. The result is `UpdateOutcome`. |
| Actions.UpdateMaySendDataUrl | lib/actions.ts:106-121 | When the upload yields no url, the update still sends the base64 image as the project's image, whereas create sends nothing. |
| Actions.UpdateIdempotent | lib/actions.ts:102-121 | Re-submitting a form whose image became a hosted url uploads nothing and sends that form unchanged. |
| UrlEncoded.Encode | components/LoadMore.tsx:29 | A percent-encoded name or value never contains `&` or `=`. |
| UrlEncoded.Serialize | components/LoadMore.tsx:29 | The serialized query is empty exactly when there are no parameters. |
| UrlEncoded.DecodeEncode | components/LoadMore.tsx:29 | Percent-decoding the encoding of any string gives the string back. |
| UrlEncoded.ParseSerialize | components/LoadMore.tsx:29-30 | Parsing a serialized query gives back exactly the pairs serialized, in order. |
| QueryParams.DeletedValues | components/LoadMore.tsx:23 | After `delete(name)` no pair has that name, and every other name keeps its values in order. |
| QueryParams.SetValues | components/LoadMore.tsx:24 | After `set(name, value)` the name has exactly the one value, and every other name keeps its values in order. |
| QueryParams.SetPosition | components/LoadMore.tsx:24 | `set` puts the new pair where the first pair with that name was; the pairs before it are untouched. |
| QueryParams.SetAppendsWhenAbsent | components/LoadMore.tsx:24 | `set` of an absent name appends the pair at the end. |
| QueryParams.DeletedKeepsOthers | components/LoadMore.tsx:23 | Deleting a cursor leaves the pairs with other names, and their order, as they were. |
| QueryParams.SetKeepsOthers | components/LoadMore.tsx:24 | Setting a cursor leaves the pairs with other names, and their order, as they were. |
| QueryParams.DeletedAbsent | components/LoadMore.tsx:23 | Deleting an absent name changes nothing. |
| QueryParams.SetIdempotent | components/LoadMore.tsx:24 | Setting the same pair twice equals setting it once. |
| QueryParams.SearchParams.constructor | components/LoadMore.tsx:21 | The object holds the pairs it was built from. |
| QueryParams.SearchParams.Delete | components/LoadMore.tsx:23 | The in-place `delete` leaves exactly the list `delete(name)` defines. |
| QueryParams.SearchParams.Set | components/LoadMore.tsx:24 | The in-place `set` leaves exactly the list `set(name, value)` defines. |
| QueryParams.SearchParams.ToString | components/LoadMore.tsx:29 | The loop outputs the urlencoded serialization of the current list. |
| LoadMore.NextPageCursors | components/LoadMore.tsx:22-24 | "next" with a next page leaves no `startcursor` and exactly one `endcursor`, the connection's end cursor. |
| LoadMore.FirstPageCursors | components/LoadMore.tsx:25-27 | "first" with a previous page leaves no `endcursor` and exactly one `startcursor`, the connection's start cursor. |
| LoadMore.OtherParamsKept | components/LoadMore.tsx:21-28 | Whatever the direction, every parameter other than the two cursors (such as `category`) keeps its value and order. |
| LoadMore.NavigationStable | components/LoadMore.tsx:22-28 | With the direction's flag false, or an unknown direction, the parameters are untouched; navigating twice equals navigating once. |
| LoadMore.HandleNavigation | components/LoadMore.tsx:20-32 | The pushed path is the pathname, `?` (always), and the serialization of the edited parameters. |
| LoadMore.PushedQueryParsesBack | components/LoadMore.tsx:29-31 | The query of the pushed path parses back to exactly the edited parameters. |
| LoadMore.Controls | components/LoadMore.tsx:36-47 | "First Page" is shown exactly when there is a previous page and "Next Page" exactly when there is a next page, in that order. |
| LoadMore.ShownControlsNavigate | components/LoadMore.tsx:36-47 | Pressing any shown button moves its cursor to the connection's cursor. |
| ProjectFormComponent.InitialForm | components/ProjectForm.tsx:61-68 | Without a project every field is empty; with one, every field is the project's. |
| ProjectFormComponent.IncludesCorrect | components/ProjectForm.tsx:45 | The `includes` test holds exactly when the needle occurs at some position of the string. |
| ProjectFormComponent.ImageEffects | components/ProjectForm.tsx:41-54 | No file: nothing happens. A type not containing `image`: only the alert. Otherwise: only a read of the file as a data URL. The flag is never touched. |
| ProjectFormComponent.SubmittingAfterAppend | components/ProjectForm.tsx:60 | Effects that set no flag leave `isSubmitting` as it was. |
| ProjectFormComponent.CallFor | components/ProjectForm.tsx:26-33 | `create` dispatches `createNewProject`, `edit` dispatches `updateProject`, and any other type dispatches nothing. |
| ProjectFormComponent.SubmitEffects | components/ProjectForm.tsx:21-39 | The handler sets the flag, then fetches the token. A failed token fetch skips the `try` and never clears the flag. Otherwise the flag is cleared last. The call is dispatched only for `create`/`edit`; navigation home happens exactly when that call resolves, right after it; an error is logged exactly when it rejects. |
| ProjectFormComponent.SubmitLeavesFlag | components/ProjectForm.tsx:21-39 | After a submit, `isSubmitting` is true exactly when the token fetch failed. |
| ProjectFormComponent.SubmittedOperation | components/ProjectForm.tsx:24-33 | No mutation without a token, and none for types other than `create`/`edit`. With a token, `create` sends exactly what `createNewProject` sends (`CreateCall`) and `edit` exactly what `updateProject` sends (`UpdateCall`). |
| ProjectFormComponent.SkippedCreateStillNavigates | components/ProjectForm.tsx:26-29 | A create whose upload yields no url sends nothing, yet the form still navigates home. |
| ProjectFormComponent.SubmitButtonFor | components/ProjectForm.tsx:125-134 | The title uses the create wording exactly for `create` and the progressive form exactly while submitting; the icon is hidden exactly while submitting. |
| ProjectFormComponent.OtherKindShowsEditButDispatchesNothing | components/ProjectForm.tsx:126-130 | A type other than `create`/`edit` shows the Edit wording but submitting it dispatches nothing. |
| ProjectFormComponent.ProjectFormState.constructor | components/ProjectForm.tsx:60-68 | The component starts not submitting, with no effects and the initial form. |
| ProjectFormComponent.ProjectFormState.HandleStateChange | components/ProjectForm.tsx:56-58 | Merges one field into the form and changes nothing else. |
| ProjectFormComponent.ProjectFormState.HandleChangeImage | components/ProjectForm.tsx:41-49 | Leaves the form and flag as they were and performs `ImageEffects` of the picked file. |
| ProjectFormComponent.ProjectFormState.ImageLoaded | components/ProjectForm.tsx:50-53 | A finished read sets only the image field, to the data URL. |
| ProjectFormComponent.ProjectFormState.Attempt | components/ProjectForm.tsx:25-35 | The `try` block performs `AttemptEffects` and leaves the client as `SubmittedOperation` says. |
| ProjectFormComponent.ProjectFormState.HandleSubmit | components/ProjectForm.tsx:21-39 | Performs exactly `SubmitEffects`. The flag ends true exactly when the token fetch failed, which is also exactly when the handler's promise rejects. The client sends exactly `SubmittedOperation` with the bearer token. |

## Left out

- The bodies of `uploadImage`, `fetchToken` and the transport behind `makeGraphqlRequest` (`fetch`, JSON decoding, the GraphQL server) are not modelled. What they settle to is an input.
- The GraphQL query texts, the environment-dependent `apiUrl`, `server` and `apiKey` are left out. The API key is an opaque string fixed when the client is built.
- The upload's JSON is modelled only through its `url` field, and its truthiness.
- A `fetchToken` reply without a `token` field (which would send `Bearer undefined`) is not modelled.
- Concurrency is not modelled. Each exported function runs to completion on the shared client; the interleaving of two awaiting calls, and the header races it allows, are not modelled. `WriteThenRead` shows only the sequential leak.
- The `FileReader` is asynchronous: the read started by `handleChangeImage` completes in a separate `ImageLoaded` call, and a stale read finishing after a newer one is not modelled.
- `URLSearchParams` parsing of `window.location.search` is not modelled: the current pairs are an input. `UrlEncoded.ParseQuery` is a reference inverse of the serializer, not the standard's full parser, which also accepts input the serializer never produces.
- Strings are sequences of Unicode scalar values, so JavaScript strings holding lone surrogates are not modelled.
- `handleStateChange` with a name that is not one of the six form fields (which would add a new key) is not modelled: `Field` lists only the six.
- Rendering is not modelled: the layout, the poster label and preview, the `required` and `accept` attributes of the file input, the category menu's options, `Navbar`, `FormField` and `Button`. Only the submit button's title, icon and `submitting` props are modelled.
- `preventDefault` calls are not modelled.

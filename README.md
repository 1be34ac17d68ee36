# np-api client session and request logic in Dafny

This project models the client side of the np-api React helpers. It covers:

- how a bearer token is stored, read and judged expired;
- when a request carries `Authorization: Bearer <token>` and which fetch
  `credentials` mode it uses;
- how request URLs and the login-popup URL are put together;
- how the request hooks (`useGet`, `useRequest`, `useBaseMutation`,
  `useBaseQuery`, the upload hook) step `loading`, `error` and their data
  through a call;
- the small decisions made inside UI files: the create-workspace form
  validation, the workspace search filters, the keyboard focus of the
  workspace selector, a notification's relative age, avatar and
  mark-as-read control, profile initials, and the notification id
  filtering.

The network, the clock and the JWT payload decoder are parameters of the model:

- a request's network result is an `Http.Outcome`: a response, or a network failure with its message;
- the current time is `nowMs`;
- `atob` plus `JSON.parse` plus reading `exp` is a `TokenUtils.Decoder`.

The hooks are classes. Each call is one method whose `ensures` gives the whole new
state. Every hook also records the requests it sent, and every value it gave
`loading` as a trace. This makes the "loading goes true, then back to false
on every exit" order a stated property.

Modules follow the source files:

- `TokenUtils` models helper/utils.ts
- `Provider` models helper/provider.tsx
- `LoginHelper` models helper/AuthHelper.tsx
- `FetchUtils` models helper/fetchUtils.ts
- `ApiRequestsBase` models helper/ApiRequestsBase.tsx
- `RootAuthHelper` models AuthHelper.tsx
- `WebFilesApp` models np/webFilesApp.tsx
- `EntityHooks` models np/hooks/generateEntityHooks.tsx
- `CreateWorkspaceForm` models np/components/workspace/CreateWorkspaceForm.tsx
- `WorkspaceSelector` models np/components/WorkspaceSelector.tsx
- `WorkspacesModalView` models np/components/workspace/WorkspacesModalView.tsx
- `LegacyWorkspacesModalView` models np/components/WorkspacesModalView.tsx
- `NotificationItem` models np/notifications/components/NotificationItem.tsx
- `ProfileImage` models np/components/ProfileImage.tsx
- `UseNotifications` models np/notifications/hooks/useNotifications.ts

Shared modules hold what several files use:

- `Wrappers`: `Option`, `Result`.
- `Text`: JavaScript `trim`, `split`, `join`, ASCII case mapping, UTF-16 length, integer printing.
- `Json`: parsed values, truthiness, property access.
- `Query`: `URLSearchParams.get` and `location.search`.
- `Uri`: `encodeURIComponent`.
- `Http`: requests, responses, outcomes.
- `Browser`: Web Storage, `alert`, `window.open`.
- `Workspaces`: the workspace record and both search filters.

Two versions of some functions exist in the source, and the model keeps both:

- **Token location.** The root `AuthHelper.tsx` reads the token from the URL's `b_token` parameter. It sends `Bearer <token>` unconditionally, which gives `Bearer null` without a token. The `helper/` files read it from `localStorage` and send the header only for a valid token.
- **Failure handling on a malformed token.** The two `isTokenExpired` functions differ on the path they take for a malformed token: one throws and catches, the other returns. `RootAuthHelper.IsTokenExpired` is proved equal to `TokenUtils.IsTokenExpired`.
- **Login popup.** The two popups differ in height and in `tokenType`. `LoginPopupsDiffer` states this.
- **Workspace filter.** The older workspace modal and the selector read `description` without a guard. The JavaScript throws a `TypeError` for a workspace whose name does not match and whose description is missing; the model returns `None` there (`Workspaces.FilterStrict`). The newer modal tolerates a missing description (`Workspaces.FilterLenient`).

The create-workspace form's description message says "less than 500 characters". The code rejects only a length above 500, so exactly 500 passes. The model follows the code (`CreateWorkspaceForm.DescriptionError`).

## Model

| member | source | states |
|---|---|---|
| TokenUtils.UrlBearerToken | helper/utils.ts:5-8 | the value of the first `bearer_token` pair of the query string, or none when no pair has that name |
| TokenUtils.UrlRefreshToken | helper/utils.ts:10-13 | the value of the first `refresh_token` pair of the query string, or none |
| TokenUtils.SetBToken | helper/utils.ts:23-25 | the bearer slot (`BearerTokenKey1`) then reads back the token written; the refresh slot is unchanged; no other key changes |
| TokenUtils.SetRefreshToken | helper/utils.ts:27-29 | the refresh slot (`RefreshTokenKey1`) reads back the token written; the bearer slot is unchanged |
| TokenUtils.Logout | helper/utils.ts:31-34 | both slots are overwritten with the string "undefined" (Web Storage stringifies `undefined`), not removed; nothing else changes |
| TokenUtils.IsTokenExpired | helper/utils.ts:37-60 | a token is not expired exactly when it has three dot segments, its payload decodes, it has a non-zero `exp`, and `nowMs` lies before the end of second `exp`; every other case, decode failure included, is expired |
| TokenUtils.ExpiryBoundary | helper/utils.ts:54-55 | a token whose `exp` is the current second is still valid at its last millisecond; it is expired from the first millisecond of the next second |
| TokenUtils.ExpiredStaysExpired | helper/utils.ts:54-55 | once expired at some time, a token is expired at every later time |
| TokenUtils.DotlessTokenExpired | helper/utils.ts:39-43 | a token without any `.` is expired whatever the decoder and clock |
| TokenUtils.GetHeaders | helper/utils.ts:64-78 | `Content-Type: application/json` always; `Authorization` exactly when the stored token is present, non-empty and unexpired, and then it is `Bearer <token>`; no other header |
| TokenUtils.LogoutLeavesNoValidToken | helper/utils.ts:31-34 | after logout the bearer slot holds "undefined", which is not a valid token, so no `Authorization` header is built |
| Provider.AuthProvider | helper/provider.tsx:16-23 | the context carries `loginPageUrl` and `apiBaseUrl` exactly as given |
| Provider.ShouldLogin | helper/provider.tsx:25-38 | false exactly when a token is present, non-empty and valid at `nowMs`; equivalently, exactly when a request would carry `Authorization` |
| Provider.ShouldLoginFromStore | helper/provider.tsx:26-34 | reading the bearer slot: a missing token or an expired one means login; no login needed exactly when `getHeaders` would authorise |
| LoginHelper.OpenLogin | helper/AuthHelper.tsx:7-25 | a `_blank` popup 500 wide and 700 high on `loginPageUrl?redirectUrl=<encodeURIComponent(origin)>&tokenType=bearer_token` |
| LoginHelper.LoginUrlQuery | helper/AuthHelper.tsx:14-18 | reading the login URL's query back raw, before percent-decoding, gives exactly the pairs `redirectUrl` = encoded origin and `tokenType`, in that order |
| LoginHelper.SerializedLoginPairs | helper/AuthHelper.tsx:16-18 | the two-pair query string parses back to its pairs and `get` finds each value |
| LoginHelper.LoginUrlSearch | helper/AuthHelper.tsx:16-18 | the search part of the login URL is the serialisation of the two pairs |
| LoginHelper.EncodedIsPlain | helper/AuthHelper.tsx:16-17 | an `encodeURIComponent` result holds no `&`, `=` or `#`, so it cannot split the query |
| LoginHelper.LoginSearch | helper/AuthHelper.tsx:16-18 | the query string is exactly `?redirectUrl=<enc>&tokenType=<type>`, starts with `?` and has no fragment |
| LoginHelper.LoginButtonClick | helper/AuthHelper.tsx:34-46 | an empty `loginPageUrl` only alerts and writes nothing; otherwise `pathname + search` is written to session storage under the return-path key, and then the popup opens, in that order |
| FetchUtils.MethodNamesDistinct | helper/fetchUtils.ts:5 | the four method spellings (post, PATCH, delete, GET) are pairwise distinct |
| FetchUtils.CredentialsFor | helper/fetchUtils.ts:18-24 | `omit` exactly when the stored token is present and unexpired, `include` otherwise |
| FetchUtils.AppFetch | helper/fetchUtils.ts:7-28 | url, method and headers are forwarded unchanged; no header is added; the body is `JSON.stringify(body)` for every method (absent only for `undefined`); credentials follow token validity; a GET with a body is rejected by fetch with a TypeError, any other request resolves to the network's answer uninspected |
| FetchUtils.CredentialsMatchHeaders | helper/fetchUtils.ts:18-24 | `appFetch` omits cookies exactly when `getHeaders` would send `Authorization` |
| ApiRequestsBase.NotOkMessage | helper/ApiRequestsBase.tsx:44-46 | the error text is `Error: <status>` and the status reads back from it |
| ApiRequestsBase.RequestUrl | helper/ApiRequestsBase.tsx:35-36 | the URL is `apiBaseUrl`, then `path`, then the query string or nothing, with nothing inserted |
| ApiRequestsBase.RequestUrlQuery | helper/ApiRequestsBase.tsx:35-36 | with a serialized query string on a base and path without `?`/`#`, the URL's query gives back exactly those pairs |
| ApiRequestsBase.VerbOf | helper/ApiRequestsBase.tsx:38 | `options.method` when given and non-empty, else "GET" |
| ApiRequestsBase.BodyWithoutMethodForbidden | helper/ApiRequestsBase.tsx:38-40 | a `useGet` with no method is refused by fetch exactly when it is given a body |
| ApiRequestsBase.GetRequest | helper/ApiRequestsBase.tsx:35-42 | the `useGet` request: composed URL, method, the given headers, the options body stringified, default credentials |
| ApiRequestsBase.SubmitRequest | helper/ApiRequestsBase.tsx:97-104 | the `useRequest` request: composed URL, the hook's method, the given headers, the submitted body |
| ApiRequestsBase.RequestAuthorizedIffSession | helper/ApiRequestsBase.tsx:39 | a `useGet` request carries `Authorization` exactly when `shouldLogin` is false, and then it is `Bearer <token>` |
| ApiRequestsBase.GetHook.constructor | helper/ApiRequestsBase.tsx:24-28 | `data` undefined, `loading` true, `error` null, nothing sent |
| ApiRequestsBase.GetHook.FetchData | helper/ApiRequestsBase.tsx:30-55 | one request handed to fetch; `loading` goes true then false on every exit; a GET or HEAD with a body ends in fetch's TypeError, which sets `error` and keeps `data`; otherwise success sets `data` to `result.data ?? undefined` and clears `error`, and failure, including `Error: <status>` for a non-2xx response, sets `error` and keeps `data` |
| ApiRequestsBase.RequestHook.constructor | helper/ApiRequestsBase.tsx:81-83 | `loading` false, `error` null, nothing sent |
| ApiRequestsBase.RequestHook.Submit | helper/ApiRequestsBase.tsx:85-118 | an empty `apiBaseUrl` alerts and changes no state and sends nothing; otherwise one request, `loading` true then false, `onSuccess` receives the whole parsed body only on success, failure sets `error` |
| ApiRequestsBase.UsePost | helper/ApiRequestsBase.tsx:123-132 | a fresh hook on the same path and options with method "post" |
| ApiRequestsBase.UseDelete | helper/ApiRequestsBase.tsx:134-143 | a fresh hook with method "delete" |
| ApiRequestsBase.UsePatch | helper/ApiRequestsBase.tsx:145-154 | a fresh hook with method "patch" |
| ApiRequestsBase.SubmitOutsideProvider | helper/provider.tsx:4 | without an `AuthProvider` the default context's empty `apiBaseUrl` makes every submit alert "Dev:Provide apiBaseUrl in Auth Context" and send nothing |
| ApiRequestsBase.SubmitUnderProvider | helper/provider.tsx:16-23 | under a provider with a non-empty `apiBaseUrl`, a submit sends one request whose URL starts with that base, and no alert |
| RootAuthHelper.OpenLogin | AuthHelper.tsx:40-62 | a `_blank` popup 500 wide and 600 high on `loginPageUrl?redirectUrl=<encodeURIComponent(origin)>&tokenType=b_token` |
| RootAuthHelper.OpenLoginQuery | AuthHelper.tsx:49-54 | the popup URL's query, read raw before percent-decoding, gives `redirectUrl` = encoded origin and `tokenType` = `b_token` |
| RootAuthHelper.LoginPopupsDiffer | AuthHelper.tsx:41-54 | this popup differs from the helper/ one in height and in URL |
| RootAuthHelper.GetBToken | AuthHelper.tsx:64-67 | none exactly when no query pair is named `b_token`; otherwise the value of the first such pair |
| RootAuthHelper.TryIsTokenExpired | AuthHelper.tsx:70-87 | the body before the catch throws exactly when the segment count is not 3 or the payload does not decode; when it returns "not expired" the token is valid |
| RootAuthHelper.IsTokenExpired | AuthHelper.tsx:70-92 | with the catch turning every throw into true, it agrees with the helper/ version on every token, decoder and time |
| RootAuthHelper.ShouldLogin | AuthHelper.tsx:94-107 | false exactly when a non-empty, valid `b_token` is in the URL; the same decision as `Provider.ShouldLogin` on that token |
| RootAuthHelper.BearerHeaders | AuthHelper.tsx:126-129 | always `Authorization` and `Content-Type: application/json`; `Bearer <token>`, or `Bearer null` without a token |
| RootAuthHelper.LoginButtonClick | AuthHelper.tsx:233-240 | an empty `loginPageUrl` only alerts; otherwise the `b_token` popup opens; session storage is never written |
| RootAuthHelper.GetHook.constructor | AuthHelper.tsx:109-113 | `data` null, `loading` true, `error` null |
| RootAuthHelper.GetHook.FetchData | AuthHelper.tsx:115-145 | one request with the unconditional bearer headers; `loading` true then false; a GET or HEAD with a body ends in fetch's TypeError, which sets `error` and keeps `data`; otherwise success sets `data` to `result.data ?? undefined` and failure sets `error` and keeps `data` |
| RootAuthHelper.RequestHook.constructor | AuthHelper.tsx:158-164 | `loading` false, `error` null |
| RootAuthHelper.RequestHook.Submit | AuthHelper.tsx:166-198 | an empty `apiBaseUrl` alerts and leaves `loading` and `error` unchanged and sends nothing; otherwise one request to `apiBaseUrl + path`; `onSuccess` gets `result.data ?? undefined`; `loading` ends false |
| RootAuthHelper.SubmitUrlHasNoQuery | AuthHelper.tsx:177 | the submit URL is exactly `apiBaseUrl + path` |
| RootAuthHelper.UsePost | AuthHelper.tsx:203-205 | a fresh hook with method "post" |
| RootAuthHelper.UseDelete | AuthHelper.tsx:207-209 | a fresh hook with method "delete" |
| RootAuthHelper.UsePatch | AuthHelper.tsx:211-213 | a fresh hook with method "patch" |
| WebFilesApp.StripTrailingSlashes | np/webFilesApp.tsx:62 | a prefix of the input not ending in `/`, with only `/` removed |
| WebFilesApp.StripLeadingSlashes | np/webFilesApp.tsx:63 | a suffix of the input not starting with `/`, with only `/` removed |
| WebFilesApp.JoinUrl | np/webFilesApp.tsx:60-65 | an empty base gives the path unchanged; otherwise the stripped base, exactly one `/`, the stripped path, so no `/` on either side of the seam |
| WebFilesApp.StripTrailingExtra | np/webFilesApp.tsx:62 | extra trailing slashes on the base do not change the stripped base |
| WebFilesApp.StripLeadingExtra | np/webFilesApp.tsx:63 | extra leading slashes on the path do not change the stripped path |
| WebFilesApp.JoinUrlIgnoresExtraSlashes | np/webFilesApp.tsx:60-65 | for a non-empty base, adding slashes at the seam leaves the joined URL unchanged |
| WebFilesApp.ApiUrl | np/webFilesApp.tsx:75-76 | the joined URL, followed by `?projectId=<id>` only for a non-empty project id |
| WebFilesApp.ApiUrlProject | np/webFilesApp.tsx:75-76 | the URL's query gives back the project id under `projectId` |
| WebFilesApp.ApiRequest | np/webFilesApp.tsx:75-97 | the method upper-cased; `Content-Type` always and `Authorization: Bearer <token>` exactly for a valid token; credentials `omit` exactly then, else `include`; a JSON body exactly when data is truthy and the method is not get |
| WebFilesApp.UpperCaseVerbs | np/webFilesApp.tsx:90 | `toUpperCase` of each verb is its wire spelling |
| WebFilesApp.NotOkText | np/webFilesApp.tsx:101-104 | the response text when non-empty, else `HTTP <status>` with the status readable back; never empty |
| WebFilesApp.ApiResult | np/webFilesApp.tsx:99-106 | success exactly for a 2xx response whose body parses; a non-2xx response fails with a non-empty message, the response text when there is one |
| WebFilesApp.ErrorText | np/webFilesApp.tsx:144 | `err.message \|\| fallback` |
| WebFilesApp.AppFileJson | np/webFilesApp.tsx:96 | a missing file serialises to null, a file to an object with an `id` |
| WebFilesApp.ValidateAppFile | np/webFilesApp.tsx:219-230 | passes exactly for a file with a non-empty name and either a non-empty url or an id starting `temp_`; otherwise the first failing check's message, in the order file, name, url |
| WebFilesApp.ValidateFileId | np/webFilesApp.tsx:267-270 | passes exactly for a non-empty id, else "File ID is required" |
| WebFilesApp.DeleteBodyNamesFile | np/webFilesApp.tsx:274-275 | the delete body names the file id and the project id when there is one, and is truthy, so it is always sent |
| WebFilesApp.Mutation.constructor | np/webFilesApp.tsx:109-117 | `loading` false, `error` "", nothing sent |
| WebFilesApp.Mutation.Submit | np/webFilesApp.tsx:119-148 | a failed validation sets `error` to its message and neither sends nor touches `loading`; otherwise one request, `loading` true then false, `onComplete(message, data)` on success, the error text or the fallback on failure |
| WebFilesApp.UseAddFilesAppFile | np/webFilesApp.tsx:236-243 | a mutation on `files_app` with "post", `validateAppFile` and fallback "An error occurred" |
| WebFilesApp.UseUpdateFilesAppFile | np/webFilesApp.tsx:245-252 | a mutation on `files_app` with "patch" and `validateAppFile` |
| WebFilesApp.UseDeleteFilesAppFile | np/webFilesApp.tsx:254-298 | a mutation on `files_app` with "delete", the id check, the `{ id, projectId }` body and fallback "Delete failed" |
| WebFilesApp.BaseQuery.constructor | np/webFilesApp.tsx:154-164 | `result` null, every flag false, `error` "" |
| WebFilesApp.BaseQuery.FetchData | np/webFilesApp.tsx:166-192 | one GET without body; a user-triggered call raises `isRefetchingByUser`, any other raises `loading`; all three flags end false; success sets `result` to `data`, failure sets the error text or "Failed to fetch data" and keeps `result` |
| WebFilesApp.BaseQuery.Start | np/webFilesApp.tsx:168-174 | the flags raised before the request, and `error` cleared |
| WebFilesApp.BaseQuery.Finish | np/webFilesApp.tsx:187-191 | the `finally` block: all three flags back to false |
| WebFilesApp.UseFileAppFiles | np/webFilesApp.tsx:232-234 | a query on `files_app` for the project |
| WebFilesApp.UploadFailedText | np/webFilesApp.tsx:352-354 | `Upload failed: <status> <statusText>` |
| WebFilesApp.UploadRequest | np/webFilesApp.tsx:321-344 | a POST of the file form to the joined URL; `Authorization` only and exactly for a valid token; credentials `omit` exactly then |
| WebFilesApp.FileUpload.constructor | np/webFilesApp.tsx:302-304 | an empty loading map |
| WebFilesApp.FileUpload.UploadFile | np/webFilesApp.tsx:306-371 | a missing file fails with "File is required" and changes nothing; otherwise the id is marked loading, one request is sent, and the id alone is removed from the map afterwards; success exactly for a 2xx JSON response, passing its `data` on; a non-2xx response fails with the upload-failed text |
| WebFilesApp.UploadTouchesOnlyItsId | np/webFilesApp.tsx:319 | marking and unmarking one id leaves every other id's entry as it was |
| EntityHooks.Capitalize | np/hooks/generateEntityHooks.tsx:37-38 | the first character upper-cased, the rest unchanged, same length |
| EntityHooks.HookNamesDistinct | np/hooks/generateEntityHooks.tsx:56-61 | the four hook names are pairwise distinct for every entity name |
| EntityHooks.GenerateEntityHooks | np/hooks/generateEntityHooks.tsx:32-62 | exactly the four keys `use<C>s`, `useAdd<C>`, `useUpdate<C>`, `useDelete<C>`, all on the same path; calling the list hook passes its path and `enabled` to `useProjectGetBase`, calling the others makes a `useProjectRequest` for "post", "PATCH" and "delete" |
| CreateWorkspaceForm.NameError | np/components/workspace/CreateWorkspaceForm.tsx:20-28 | no error exactly when the trimmed name has at least 3 UTF-16 units; "required" for a blank name, "at least 3" otherwise |
| CreateWorkspaceForm.DescriptionError | np/components/workspace/CreateWorkspaceForm.tsx:30-35 | no error exactly when the trimmed description has at most 500 units, so exactly 500 passes |
| CreateWorkspaceForm.NameRequiredIffBlank | np/components/workspace/CreateWorkspaceForm.tsx:20-22 | the "required" error appears exactly for a name made only of whitespace |
| CreateWorkspaceForm.Form.constructor | np/components/workspace/CreateWorkspaceForm.tsx:12-15 | all four fields empty |
| CreateWorkspaceForm.Form.SetName | np/components/workspace/CreateWorkspaceForm.tsx:12 | only the name changes |
| CreateWorkspaceForm.Form.SetDescription | np/components/workspace/CreateWorkspaceForm.tsx:13 | only the description changes |
| CreateWorkspaceForm.Form.ValidateForm | np/components/workspace/CreateWorkspaceForm.tsx:17-38 | both fields are checked on every call; the errors are set to the field rules; the result is true exactly when neither failed |
| CreateWorkspaceForm.Form.HandleSubmit | np/components/workspace/CreateWorkspaceForm.tsx:40-45 | `onSubmit` receives the trimmed name and description exactly when the form is valid, and every submitted pair meets both length rules |
| CreateWorkspaceForm.SubmitDisabledIffNameRequired | np/components/workspace/CreateWorkspaceForm.tsx:175 | the button is disabled exactly while loading or while validation would report the name missing |
| CreateWorkspaceForm.EnabledButTooShort | np/components/workspace/CreateWorkspaceForm.tsx:175 | a form whose trimmed name has one or two characters has the button enabled, yet validation rejects the name as too short |
| Text.TrimEmptyIffBlank | np/components/workspace/CreateWorkspaceForm.tsx:20 | `trim()` gives "" exactly for a string of JavaScript whitespace |
| Workspaces.EmptyFilterMatches | np/components/workspace/WorkspacesModalView.tsx:24-29 | every text contains the empty filter |
| Workspaces.FilterBy | np/components/workspace/WorkspacesModalView.tsx:24-29 | the result holds exactly the kept elements of the input |
| Workspaces.FilterIsSubsequence | np/components/workspace/WorkspacesModalView.tsx:24-29 | the filtered list keeps the input order |
| Workspaces.FilterKeepingAll | np/components/workspace/WorkspacesModalView.tsx:24-29 | a filter keeping every element returns the input |
| Workspaces.LenientMembership | np/components/workspace/WorkspacesModalView.tsx:24-29 | a workspace is listed exactly when it is in the input and its name contains the filter case-insensitively, or its description is present and contains it |
| Workspaces.LenientEmptyFilter | np/components/workspace/WorkspacesModalView.tsx:24-29 | the empty filter lists every workspace |
| Workspaces.LenientIsSubsequence | np/components/workspace/WorkspacesModalView.tsx:24-29 | the listed workspaces are an order-preserving subsequence of the input |
| Workspaces.FilterStrict | np/components/WorkspacesModalView.tsx:149-153 | the unguarded filter fails exactly when some workspace neither matches by name nor has a description |
| Workspaces.StrictAgreesWithLenient | np/components/WorkspacesModalView.tsx:149-153 | whenever the unguarded filter does not fail, it lists the same workspaces as the guarded one |
| Workspaces.KeepStrictAgrees | np/components/WorkspacesModalView.tsx:150-152 | for one workspace, the unguarded test agrees with the guarded one when it does not fail |
| Workspaces.StrictTotalWithDescriptions | np/components/WorkspacesModalView.tsx:149-153 | with every description present the unguarded filter never fails |
| Workspaces.StrictEmptyFilter | np/components/WorkspacesModalView.tsx:149-153 | the empty filter lists every workspace, even without descriptions, since every name matches |
| Workspaces.StrictSelection | np/components/WorkspacesModalView.tsx:149-153 | with descriptions present: an order-preserving subsequence, holding exactly the workspaces whose lower-cased name or description contains the lower-cased filter |
| WorkspaceSelector.SourceList | np/components/WorkspaceSelector.tsx:75 | the demo list in demo mode, else the fetched data, else [] |
| WorkspaceSelector.DemoSearchTotal | np/components/WorkspaceSelector.tsx:6-56 | searching the demo list never fails, whatever the filter |
| WorkspaceSelector.FocusAfter | np/components/WorkspaceSelector.tsx:88-97 | ArrowDown is `min(prev + 1, len - 1)`, ArrowUp is `max(prev - 1, 0)`, other keys keep the focus |
| WorkspaceSelector.FocusStaysOnList | np/components/WorkspaceSelector.tsx:88-97 | on a non-empty list, arrow keys from any focus in [-1, len) land on an item |
| WorkspaceSelector.EmptyListArrowDown | np/components/WorkspaceSelector.tsx:91 | ArrowDown on an empty list gives -1 |
| WorkspaceSelector.Selector.constructor | np/components/WorkspaceSelector.tsx:70-72 | empty filter, nothing selected, focus 0 |
| WorkspaceSelector.Selector.Filtered | np/components/WorkspaceSelector.tsx:77-81 | in demo mode the filter always yields the guarded result |
| WorkspaceSelector.Selector.SetFilter | np/components/WorkspaceSelector.tsx:121-123 | a changed filter resets focus to 0; re-setting the same filter keeps it |
| WorkspaceSelector.Selector.HandleKeyDown | np/components/WorkspaceSelector.tsx:83-114 | ignored while closed; focus moves as `FocusAfter`; Enter selects and reports the focused item only when it exists; Escape calls `onClose` once |
| WorkspaceSelector.Selector.Click | np/components/WorkspaceSelector.tsx:169-172 | the clicked workspace becomes `selectedId` and is reported |
| WorkspaceSelector.Selector.Cancel | np/components/WorkspaceSelector.tsx:225 | `onClose` is called once and nothing else changes |
| WorkspacesModalView.ViewOf | np/components/workspace/WorkspacesModalView.tsx:108-133 | the loading notice exactly while loading; else the listed workspaces, or for an empty result the not-found message exactly for a non-empty filter and "No workspaces available" exactly for the empty one |
| WorkspacesModalView.ClearedView | np/components/workspace/WorkspacesModalView.tsx:31-33 | with the filter cleared, every workspace is listed, or "none available" for an empty list |
| WorkspacesModalView.ModalView.constructor | np/components/workspace/WorkspacesModalView.tsx:20-21 | empty filter, nothing selected |
| WorkspacesModalView.ModalView.SetFilter | np/components/workspace/WorkspacesModalView.tsx:79 | only the filter changes |
| WorkspacesModalView.ModalView.ClearSearch | np/components/workspace/WorkspacesModalView.tsx:31-33 | the filter becomes "" and, when loaded and non-empty, every workspace is listed |
| WorkspacesModalView.ModalView.Select | np/components/workspace/WorkspacesModalView.tsx:158-161 | the clicked listed workspace becomes `selectedId`, is reported, and is one of the input workspaces |
| WorkspacesModalView.ModalView.Cancel | np/components/workspace/WorkspacesModalView.tsx:243 | `onClose` is called once |
| LegacyWorkspacesModalView.ModalView.constructor | np/components/WorkspacesModalView.tsx:145-146 | empty filter, nothing selected |
| LegacyWorkspacesModalView.ModalView.Listed | np/components/WorkspacesModalView.tsx:149-153 | the unguarded search: it throws exactly when some workspace's name does not match and it has no description; otherwise it lists the workspaces whose name or description matches, in order; the empty filter lists every workspace |
| LegacyWorkspacesModalView.ModalView.SetFilter | np/components/WorkspacesModalView.tsx:169-170 | only the filter changes |
| LegacyWorkspacesModalView.ModalView.Select | np/components/WorkspacesModalView.tsx:194-197 | the clicked workspace becomes `selectedId`, the same workspace is reported, and it is one of the input workspaces |
| LegacyWorkspacesModalView.ModalView.Cancel | np/components/WorkspacesModalView.tsx:251 | `onClose` is called once |
| NotificationItem.AgoReadBack | np/notifications/components/NotificationItem.tsx:70-73 | the count and unit can be read back from an age text `<n><unit> ago` |
| NotificationItem.RelativeTime | np/notifications/components/NotificationItem.tsx:63-74 | "" exactly for a missing or zero timestamp |
| NotificationItem.RelativeTimeUnits | np/notifications/components/NotificationItem.tsx:65-73 | in milliseconds of age: seconds below 60000, minutes below 3600000, hours below 86400000, days beyond, each the floor of the age by the unit; a future timestamp gives a negative second count |
| NotificationItem.DivDiv | np/notifications/components/NotificationItem.tsx:66-69 | flooring twice equals flooring once by the product, so the successive divisions are floors of the age by 60000, 3600000, 86400000 |
| NotificationItem.AvatarSrc | np/notifications/components/NotificationItem.tsx:81-82 | the 240px icon if present, else the original, else ""; "" exactly when neither is present |
| NotificationItem.AvatarImageIffIcon | np/notifications/components/NotificationItem.tsx:94-98 | the avatar image is shown exactly when the user has an icon of either size |
| NotificationItem.MarkAsReadControl | np/notifications/components/NotificationItem.tsx:104-111 | offered exactly when the notification is not read, and then it passes the singleton list of that notification |
| ProfileImage.CharAt0 | np/components/ProfileImage.tsx:41 | the first code point, or "" for an empty string |
| ProfileImage.FirstInitials | np/components/ProfileImage.tsx:40-43 | one character per non-empty part among the first two, at most two: the first part's first character first, the second part's last |
| ProfileImage.GetInitials | np/components/ProfileImage.tsx:38-45 | at most two characters |
| ProfileImage.BlankNameHasNoInitials | np/components/ProfileImage.tsx:39-44 | a blank name gives no initials |
| ProfileImage.InitialsOfWords | np/components/ProfileImage.tsx:38-45 | for words separated by single spaces, the upper-cased first letters of the first two words |
| ProfileImage.DoubleSpaceGivesOneInitial | np/components/ProfileImage.tsx:39-43 | a double space makes an empty part, so "Ann  Lee" gets the single initial "A" |
| ProfileImage.FaceOf | np/components/ProfileImage.tsx:47-67 | the image exactly for a present, non-empty `avatarUrl`, else the initials of the name |
| ProfileImage.FaceOfWords | np/components/ProfileImage.tsx:38-67 | with no avatar, a name of plain words shows the upper-cased first letters of its first two words, or of its only word |
| UseNotifications.NotificationsOf | np/notifications/hooks/useNotifications.ts:14 | [] before data arrives, the data afterwards; empty exactly when no data or an empty list arrived |
| UseNotifications.MarkListedBeforeLoad | np/notifications/hooks/useNotifications.ts:14-35 | marking the listed notifications before the list has loaded sends nothing |
| UseNotifications.IdsToMark | np/notifications/hooks/useNotifications.ts:32 | exactly the non-empty ids of the given notifications, none of them empty |
| UseNotifications.IdsToMarkAppend | np/notifications/hooks/useNotifications.ts:32 | the ids keep the order of the notifications |
| UseNotifications.IdsBody | np/notifications/hooks/useNotifications.ts:34 | the body is a JSON array of the ids as strings, in order |
| UseNotifications.OnMarkAsRead | np/notifications/hooks/useNotifications.ts:31-35 | no call for an empty id list; otherwise the ids are posted to `notifications/markasread`, followed by exactly one refetch exactly when that request succeeds |
| UseNotifications.OnMarkAllAsRead | np/notifications/hooks/useNotifications.ts:37-39 | `{}` is posted to `notifications/markallasread`, followed by exactly one refetch exactly on success |
| UseNotifications.ItemButtonPostsItsId | np/notifications/hooks/useNotifications.ts:31-35 | the item's mark-as-read button on an unread notification with an id posts exactly that id |
| Json.DataOrUndefined | helper/ApiRequestsBase.tsx:49 | `result?.data ?? undefined`: the `data` member unless it is missing or null |
| Http.Fetch | helper/fetchUtils.ts:20-25 | fetch rejects a GET or HEAD request (in any letter case) that carries a body with a TypeError; every other request gets the network's answer |
| Http.Settle | helper/ApiRequestsBase.tsx:35-49 | success exactly for a 2xx response whose body parses; a non-2xx response fails with the hook's message; a network failure keeps its own message |

## Left out

- The network, `response.json()` and `response.text()` are not modelled. Each request's result is an `Http.Outcome` parameter carrying the status, status text, text and parsed body. The message of a JSON parse failure is abstract.
- `Date.now()` is the `nowMs` parameter.
- `atob` and `JSON.parse` of the token payload are the `Decoder` parameter. A non-numeric `exp` is outside the model: the decoder yields an integer or nothing.
- Popup centering (`left`/`top` from the screen size) is fractional browser geometry and is not modelled. The popup keeps its URL, target, width and height.
- `setQueryParam` (helper/utils.ts:83-91) is not modelled. It is browser history I/O: `pushState` and a popstate event.
- `URLSearchParams` percent-decoding and `+`-to-space are not modelled. `Query.Get` returns values raw. `TokenUtils.UrlBearerToken`, `TokenUtils.UrlRefreshToken` and `RootAuthHelper.GetBToken` read raw, which matches `URLSearchParams.get` only for values with no `%` and no `+`, such as base64url tokens. `LoginHelper.LoginUrlQuery` and `RootAuthHelper.OpenLoginQuery` state the still-encoded `redirectUrl` (`https%3A%2F%2F…`), where `URLSearchParams.get` would return the decoded origin.
- Case mapping is ASCII only. `toLowerCase`/`toUpperCase` on other letters keeps them unchanged in the model.
- JSON numbers are integers.
- `TypeError`s from reading a property of a null parsed body are not modelled.
- `WebFilesApp.BaseQuery.FetchData` treats `response.data` as the result when the body parses. The body is assumed to be an object.
- React scheduling is not modelled: batched state updates, stale closures, effect timing and re-renders. Each hook call is one atomic method run against the state it starts from.
- Concurrent calls on one hook are not modelled. The two `await` points of an upload or fetch are not interleaved with other calls.
- The `onComplete` and `onSuccess` callbacks are recorded as the values they receive. `OnMarkAsRead` and `OnMarkAllAsRead` take the request hook's success as a flag.
- `helper/ApiRequestsBase.tsx:4` imports `getHeaders` from `./utils`, but that file only defines an async `getHeaders` inside `useHeaders`. The model gives the hooks the header policy of helper/utils.ts:64-78 as a plain value.
- `AUTH_RETURN_PATH_KEY` is imported from helper/provider.tsx, which does not define it. The key is a parameter of `LoginHelper.LoginButtonClick`.
- The `headers` member of `FetchOptions` is never read by the hooks and is not modelled.
- np/projects.tsx is not part of this model. The generated entity hooks are modelled by the calls they make into it (`EntityHooks.ProjectCall`).
- `useProjectGetBase` (np/projects.tsx:32) reads only `path`. The `enabled` option that the generated list hook forwards therefore switches nothing off. The model records the forwarded value in `EntityHooks.ProjectGet` and gives it no effect.
- Browsers word the TypeError that fetch raises for a GET or HEAD request with a body differently. `Http.BodyForbiddenMessage` stands for that text. Such a request is still recorded in a hook's `sent`: it was handed to fetch, though nothing reached the network.
- np/useFileUpload.ts is not part of this model. It is an axios upload outside the core.
- `useWebFileUpload.uploadFileFromBlob`, `performUpload` and `useWebNativeFileUpload` are not modelled. They wrap `uploadFile` in a promise, and `UploadFile` covers the logic.
- No refresh-token exchange exists in the source, so none is modelled. Only the refresh slot's setter and getter are.
- Rendering, styles and hover state are not modelled.
- The demo workspaces' `members` and `lastActive` fields are not modelled, and neither are the other `Workspace` fields. Only `id`, `name` and `description` take part in the logic.
- `WorkspaceSelector.Selector.HandleKeyDown`: when the unguarded filter would throw, the JavaScript handler is never built. The model then leaves the state unchanged.
- `WorkspaceSelector.Selector.Filtered`: the contract only pins down demo mode, where the filter cannot fail. Outside demo mode the result is `Workspaces.FilterStrict` of the fetched list, whose own contract characterises failure.
- `ProfileImage.CharAt0`: a first character above U+FFFF is taken whole. JavaScript's `charAt(0)` returns only its high surrogate, and a Dafny `char` cannot hold a lone surrogate. `ProfileImage.FirstInitials` and `ProfileImage.GetInitials` inherit this: for "😀 Ann" the model gives "😀A" where the source gives "\uD83D" followed by "A".
- `ProfileImage.GetInitials`: the contract bounds the length. The content is stated by `FirstInitials`, `InitialsOfWords`, `BlankNameHasNoInitials` and `DoubleSpaceGivesOneInitial`.
- `NotificationItem.RelativeTime`: the contract only says when the text is empty. The unit choice is `RelativeTimeUnits`.
- `TokenUtils.GetBToken` and `TokenUtils.GetRefreshToken` read a slot. What they return after a write is stated by `SetBToken`, `SetRefreshToken` and `Logout`.

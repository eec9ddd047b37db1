# Helpdesk: a verified model of its request rules and client state logic

This project models the statable core of a small helpdesk application in Dafny. The application has an Express/Mongoose API and a React client. The model covers three groups:

- **Server request rules.**
  - The upload classifier: extension, storage resource type, allowlist filter and size limit.
  - The status-change role guard.
  - The CORS middleware.
  - The 404 fallback and the central error handler, with its flattening of `errors`.
- **Record operations.**
  - The incident schema: required fields, enumerations and defaults.
  - The incident handlers (`getAll`, `create`, `getDetail`, `update`, `delete`) over a store `map<Id, Incident>`.
  - The user handlers (`create`, `register`, `profile`, `getProfile`) over a store `map<Id, User>` in which e-mails are unique.
- **Client logic.**
  - The shared option constants.
  - The axios interceptor's status classification and the endpoint table.
  - The incident list's search and filters, and its office choices.
  - The dashboard tallies.
  - The user page's search, create and delete.
  - The incident detail page's edit buffer and attachment handlers.
  - The sidebar's role-based menu.

Modules follow the source files: one `.dfy` per core file. `js.dfy` holds the JavaScript behaviour the files share:

- truthiness, where a field is truthy when it is present and non-empty;
- `toLowerCase`, `includes` and `split(sep).pop()`;
- `Array.prototype.filter` and the length of a filter;
- `[...new Set(xs)]`.

`errors.dfy` models `http-errors` and the three Mongoose error kinds the handler distinguishes. `pipeline.dfy` joins modules end to end: a handler's outcome, then the error handler, then the client's interceptor.

State the source changes in place is modelled as a class:

- the two stores;
- the CORS response;
- the browser the interceptor touches;
- the state of the three pages with handlers.

Their methods state the complete new state. Pure decisions are functions and lemmas. The server's request fields are `Option<string>` (`None` is undefined). Store ids are `nat` counters; client ids are strings.

## Model

| member | source | states |
|---|---|---|
| Upload.Extension | api/middlewares/upload.middleware.js:36 | The extension never contains a dot and is no longer than the name |
| Upload.ExtensionAfterLastDot | api/middlewares/upload.middleware.js:36 | For `stem.suffix` with no dot in `suffix`, the extension is the lower-cased suffix, whatever the stem holds |
| Upload.ExtensionWithoutDot | api/middlewares/upload.middleware.js:66 | A name without a dot yields the whole lower-cased name |
| Upload.Params | api/middlewares/upload.middleware.js:14-44 | Folder is always `helpdesk-uploads`; `public_id` is the original name unchanged; the resource type is raw iff the extension is one of the eight raw extensions, otherwise auto |
| Upload.FileFilter | api/middlewares/upload.middleware.js:50-72 | Accepts iff the extension is in the 13-item allowlist; otherwise rejects with "Tipo de archivo no permitido: " followed by the extension |
| Upload.RawExtensionsAreAllowed | api/middlewares/upload.middleware.js:37-39 | Every raw extension is also accepted by the filter |
| Upload.ClassificationIgnoresCase | api/middlewares/upload.middleware.js:36 | Names equal up to case get the same extension, the same filter verdict and the same resource type |
| Upload.UpperCasePdf | api/middlewares/upload.middleware.js:66-68 | `A.PDF` and `a.pdf` both have extension `pdf`, and `A.PDF` is accepted |
| Upload.DoubleExtension | api/middlewares/upload.middleware.js:66-70 | Only the last extension counts: `informe.pdf.exe` is rejected as `exe` |
| Constants.SizeLimitMatchesServer | web/src/config/constants.js:33 | The client's maximum file size equals the server's 10*1024*1024-byte upload limit, so `Upload.WithinSizeLimit` (multer's `limits.fileSize`, upload.middleware.js:77-78) admits exactly the sizes the client allows |
| RoleGuard.CheckUserRole | api/middlewares/checkUserRole.middleware.js:3-12 | Exactly one of two outcomes: forbidden iff the role is exactly `user` and the body's status is truthy, and then the outcome is 403 with the guard's message; otherwise `next` |
| RoleGuard.StaffAlwaysPass | api/middlewares/checkUserRole.middleware.js:7-11 | `admin` and `tecnico` pass whatever the body holds |
| RoleGuard.OnlyStatusInspected | api/middlewares/checkUserRole.middleware.js:7 | Bodies with the same status get the same verdict, so title and description never matter |
| RoleGuard.UserWithoutStatusPasses | api/middlewares/checkUserRole.middleware.js:7 | A `user` whose status is missing or empty passes |
| Cors.CorsHeaders | api/middlewares/cors.middleware.js:3-12 | Allow-Origin is present iff the origin is one of the two allowed ones, and then echoes it and is never `*`; the other three headers are always present |
| Cors.Exchange.SetHeader | api/middlewares/cors.middleware.js:6-12 | `res.header(name, value)` sets that one header and leaves the status and the `next` calls alone |
| Cors.Exchange.Handle | api/middlewares/cors.middleware.js:1-19 | Adds exactly those headers; OPTIONS sends 200 without calling `next`; any other method calls `next` exactly once and sends nothing |
| Cors.UnlistedOriginGetsNoHeader | api/middlewares/cors.middleware.js:5-7 | An absent or unlisted origin gets no Allow-Origin header |
| Cors.PreflightFromDevServer | api/middlewares/cors.middleware.js:3-16 | A preflight from `http://localhost:5173` echoes that origin, answers 200 and does not reach `next` |
| Routes.MountFor | api/config/routes.config.js:11-14 | `Routes.Under` is Express's prefix test: the lower-cased path equals the lower-cased prefix or continues it with `/`. A mount is chosen only for a path under its prefix, compared case-insensitively as Express does; none is chosen iff the path is under none of `/users`, `/incidents` and `/sessions` |
| Routes.Fallback | api/config/routes.config.js:16-18 | A path no router answers reaches the fallback's 404 "Route not found"; nothing reaches it iff a router matched and answered |
| Routes.UnknownPathIsNotFound | api/config/routes.config.js:16-18 | Any path under no mount gets the fallback's error, which the handler leaves unchanged |
| Routes.Normalize | api/config/routes.config.js:20-28 | The result always has a status. A cast error mentioning `_id` becomes 404 "Resource not found", ahead of every other rule. A validation error keeps its message and `errors` with status 400. Any other error without a status becomes 500 with its message. An error with a status is kept |
| Routes.CastBeforeEverything | api/config/routes.config.js:21-25 | The cast rule wins even over an error that already carries a status |
| Routes.CastOnOtherPath | api/config/routes.config.js:21-28 | A cast error that does not mention `_id` falls through to 500 with its own message |
| Routes.ExplicitStatusKept | api/config/routes.config.js:28 | An error created with a status passes through unchanged |
| Routes.BadIdIsNotFound | api/config/routes.config.js:21-25 | A Mongoose cast failure on path `_id` is reported as 404 "Resource not found" |
| Routes.FlattenEntry | api/config/routes.config.js:35-36 | An entry becomes its nested message when that message is truthy, otherwise the raw entry |
| Routes.FlattenErrors | api/config/routes.config.js:34-38 | The flattened object has exactly the keys of `errors`, each holding its flattened entry |
| Routes.HandleError | api/config/routes.config.js:20-41 | Sends the normalised status, which is never 0. The body always has the normalised `message`, and has `errors` iff the normalised error does, with the same keys flattened |
| Errors.CreateError | api/config/routes.config.js:17 | `createError(status, message)` is a plain error with exactly that status and message and no `errors` |
| Errors.CreateErrorFrom | api/config/routes.config.js:27 | Wrapping an error keeps its kind, message and `errors`; the status is set only when the error had none |
| IncidentModel.WithDefaults | api/models/incident.model.js:13-17 | A status or priority the document lacks becomes `Pending` or `Media`. Every other field is unchanged, and a present value is kept |
| IncidentModel.ValidationFailures | api/models/incident.model.js:3-41 | Each of title, description, office, name and email fails iff it is absent or empty. Status fails iff it is present and not `Pending`/`Resolved`; priority fails iff it is present and not `Alta`/`Media`/`Baja`. No other key appears. Title and description carry their custom messages |
| IncidentModel.ValidIffNoFailures | api/models/incident.model.js:3-41 | `IncidentModel.Valid`, the schema's acceptance (five required strings, the two enumerations), holds exactly when validation reports no failure |
| IncidentModel.DefaultedValidIff | api/models/incident.model.js:3-41 | A document left to its defaults is valid iff all five required strings are non-empty; it then reads Pending and Media |
| IncidentModel.SpanishStatusRefused | api/models/incident.model.js:13-17 | The client's status labels `Pendiente`, `En Progreso` and `Resuelto` are all refused by the schema |
| IncidentsController.IncidentStore.GetAll | api/controllers/incidents.controller.js:5-12 | Answers 200 with every stored incident, unfiltered |
| IncidentsController.IncidentStore.GetDetail | api/controllers/incidents.controller.js:35-48 | An absent id forwards 404 "Incident not found"; a present one answers 200 with the stored record |
| IncidentsController.DocumentMembers | api/models/incident.model.js:3-41 | A document's JSON has its id, Mongoose's version key, timestamps, files and present schema paths, and never an `incident` member |
| IncidentsController.ReplyMembers | api/controllers/incidents.controller.js:28-81 | `getDetail`'s body has exactly the document's members, so no `incident`; create's and update's bodies have an `incident` member; delete's has only `message` |
| IncidentsController.DetailReplyHasNoIncidentMember | api/controllers/incidents.controller.js:44 | A found id answers 200 with a body that has no `incident` member, while update's body for the same record has one |
| IncidentsController.IncidentStore.Save | api/controllers/incidents.controller.js:25-28 | An invalid document forwards the validation error with its failures and stores nothing. A valid one is stored under a fresh id and answered with 201, the message and that id |
| IncidentsController.IncidentStore.Create | api/controllers/incidents.controller.js:14-33 | As written: a falsy title or description forwards 400 "Title and description are required". Otherwise the validation error of the two-field document is forwarded. The store never changes |
| IncidentsController.DraftAsWritten | api/controllers/incidents.controller.js:17-25 | The document carries the body's title and description, no office, name or email, and no files |
| IncidentsController.DraftIgnoresOtherFields | api/controllers/incidents.controller.js:17 | Bodies with the same title and description give the same document |
| IncidentsController.DraftAsWrittenNeverValid | api/controllers/incidents.controller.js:25 | No body yields a valid document: office, name and email always fail |
| IncidentsController.DraftAsWrittenFailures | api/controllers/incidents.controller.js:25 | With title and description present, the failures are exactly office, name and email, each with the schema's "required" message |
| IncidentsController.DraftForCaller | api/models/incident.model.js:18-29 | The corrected document takes office, name and email from the caller; status and priority are the defaults |
| IncidentsController.DraftForCallerValid | api/models/incident.model.js:3-41 | The corrected document is valid whenever the handler's own check passes and the caller's identity is complete |
| IncidentsController.IncidentStore.CreateForCaller | api/controllers/incidents.controller.js:14-33 | The corrected create: the same 400, and with a complete identity the new incident is stored under a fresh id and answered with 201 |
| IncidentsController.Patch | api/controllers/incidents.controller.js:53-60 | Title, description and status are replaced only by truthy values; every other field, priority and files included, is untouched |
| IncidentsController.PatchIdempotent | api/controllers/incidents.controller.js:56-60 | Applying the same update twice equals applying it once |
| IncidentsController.EmptyPatchIsIdentity | api/controllers/incidents.controller.js:57-59 | An update whose three fields are all falsy changes nothing |
| IncidentsController.UpdateCanLeaveSchema | api/controllers/incidents.controller.js:56-60 | The update is not re-validated: setting status `En Progreso` turns a valid document into one the schema refuses |
| IncidentsController.IncidentStore.Update | api/controllers/incidents.controller.js:50-70 | An absent id forwards 404 and leaves the store unchanged. A present one stores the patched record, changes no other id, and answers 200 with the message and the post-update record |
| IncidentsController.IncidentStore.Delete | api/controllers/incidents.controller.js:72-85 | An absent id forwards 404. A present one is removed, every other entry is kept, and the answer is 200 with the message |
| UsersController.UserStore.Insert | api/controllers/users.controller.js:14 | The model's own error is forwarded. An e-mail already stored forwards the driver's duplicate-key error. Otherwise the user gets a fresh id and the e-mails stay unique |
| UsersController.UserStore.Create | api/controllers/users.controller.js:4-21 | Any falsy name, e-mail, password or office forwards 400 "Name, email, password y office son requeridos" and stores nothing. With all four truthy: a model error is forwarded as it is and stores nothing; a registered e-mail forwards the driver's duplicate-key error and stores nothing; otherwise exactly those four fields are stored under a fresh id, with no role, and the answer is 201 "Usuario creado exitosamente" |
| UsersController.UserStore.Register | api/controllers/users.controller.js:23-36 | A duplicate e-mail, from the store or reported by the model, forwards 400 "El email ya está registrado". Other errors are forwarded unchanged. A fresh user is stored and answered with 201 and the user itself |
| UsersController.FreshEmailKeepsUnique | api/controllers/users.controller.js:23-36 | Inserting a user whose e-mail is not yet stored keeps e-mails unique |
| UsersController.RegisteredAfterInsert | api/controllers/users.controller.js:27-28 | After insertion the user's e-mail is registered |
| UsersController.Profile | api/controllers/users.controller.js:38-55 | No session or no session user id gives 401 "No autorizado" before any lookup; an unknown id gives 404 "Usuario no encontrado"; otherwise 200 with name, e-mail and office. The answer is never the full user |
| UsersController.ProfileIgnoresSecrets | api/controllers/users.controller.js:48-52 | Stores that agree on every user's name, e-mail and office give the same profile: role and password are never exposed |
| UsersController.GetProfile | api/controllers/users.controller.js:57-59 | Answers 200 with the request's user unchanged |
| UsersController.ReplyMembers | api/controllers/users.controller.js:25-28 | A message body has only `message`; no body has other members than the user fields and `message` |
| UsersController.RegisterReplyHasNoUserMember | api/controllers/users.controller.js:28 | Register's success body, the user itself, has no member named `user` |
| Constants.Values | web/src/config/constants.js:6-24 | The values list has one entry per option, in order |
| Constants.OfficeValues | web/src/config/constants.js:6-10 | The office values are exactly Malaga, El Palo and Fuengirola |
| Constants.RoleValues | web/src/config/constants.js:20-24 | The role values are exactly user, admin and tecnico |
| Constants.PrioritiesMatchSchema | web/src/config/constants.js:13-17 | The client's priority values form the same set as the schema's priority enumeration, in a different order |
| Constants.ExtensionsMatchServer | web/src/config/constants.js:27-30 | The client's allowed extensions are the server filter's 13 extensions |
| Constants.OptionValuesDistinct | web/src/config/constants.js:6-24 | Within each option list no value repeats |
| ApiClient.Classify | web/src/services/api.js:31-44 | 401, 403, 404 and 500 each map to exactly one notice. A missing response maps to the network notice. Every other status maps to none, so there is at most one notice per error |
| ApiClient.Browser.OnFulfilled | web/src/services/api.js:27-29 | A successful response passes through unchanged |
| ApiClient.Browser.OnRejected | web/src/services/api.js:30-47 | Appends that notice's text when there is one and nothing otherwise. Redirects to `/login` only on 401. Rejects with the same error |
| ApiClient.BadRequestIsSilent | web/src/services/api.js:33-44 | Any status other than 401, 403, 404 and 500, such as 400, shows no notice |
| ApiClient.Endpoint | web/src/services/api.js:51-88 | `addFiles` is PATCH `/incidents/:id/files` with multipart data; `removeFile` is DELETE on the same path and is the only call that carries `{public_id}` |
| ApiClient.FilesEndpointsShareAPath | web/src/services/api.js:78-87 | Adding and removing files use the same path, with PATCH and DELETE |
| ApiClient.IncidentCallsReachIncidentsRouter | web/src/services/api.js:66-88 | Every incident call's path is routed to the incidents router |
| IncidentsPage.ApplyFilters | web/src/pages/Incidents.jsx:43-73 | The step-by-step narrowing equals `IncidentsPage.Visible`, the single conjunctive filter: exactly the loaded incidents that meet every active constraint |
| IncidentsPage.VisibleIsSubsequence | web/src/pages/Incidents.jsx:45-71 | The shown list is an order-preserving subsequence of the loaded list |
| IncidentsPage.NothingActiveShowsAll | web/src/pages/Incidents.jsx:45-71 | With an empty term and no filter the whole list is shown |
| IncidentsPage.VisibleExactly | web/src/pages/Incidents.jsx:48-69 | An incident is shown iff it was loaded and its title, description, name or e-mail contains the lower-cased term, and it equals each non-empty filter |
| IncidentsPage.OfficeNotSearched | web/src/pages/Incidents.jsx:50-55 | Changing an incident's office never changes the search verdict |
| IncidentsPage.WithFilter | web/src/pages/Incidents.jsx:85-91 | Only the named filter changes |
| IncidentsPage.FilterChangesCommute | web/src/pages/Incidents.jsx:85-91 | Changes to two different filters commute; of two changes to one filter the last wins |
| IncidentsPage.IncidentsPage.Loaded | web/src/pages/Incidents.jsx:30-31 | The loaded list goes into both lists |
| IncidentsPage.IncidentsPage.Refilter | web/src/pages/Incidents.jsx:43-73 | The shown list becomes the visible selection; nothing else changes |
| IncidentsPage.IncidentsPage.HandleFilterChange | web/src/pages/Incidents.jsx:85-91 | Only the named filter changes |
| IncidentsPage.IncidentsPage.ClearFilters | web/src/pages/Incidents.jsx:93-100 | All three filters and the search term become empty |
| IncidentsPage.ClearThenRefilterShowsAll | web/src/pages/Incidents.jsx:93-100 | Clearing and then running the filter effect shows the whole list |
| IncidentsPage.OfficesOf | web/src/pages/Incidents.jsx:103 | One office per incident, in order |
| IncidentsPage.OfficeChoices | web/src/pages/Incidents.jsx:103 | `IncidentsPage.Offices`, the de-duplicated office list, has no duplicates, contain every loaded office and nothing else, and keep first-occurrence order |
| IncidentsPage.StatusClick | web/src/pages/Incidents.jsx:75-77 | Clicking a status cell always sends PATCH `/incidents/:id` asking for `En Progreso` |
| IncidentsPage.StatusLabel | web/src/pages/Incidents.jsx:249 | The badge shows the status, or `Pendiente` when it is missing or empty |
| Dashboard.Active | web/src/pages/Dashboard.jsx:52 | The active list holds exactly the loaded incidents that are pending or in progress, in server order, and its length is the pending count plus the in-progress count |
| Dashboard.ComputeStats | web/src/pages/Dashboard.jsx:48-78 | The total is the number of loaded incidents |
| Dashboard.ActiveCount | web/src/pages/Dashboard.jsx:49-52 | Pending plus in-progress equals the number of active incidents |
| Dashboard.StatusCountsBound | web/src/pages/Dashboard.jsx:48-51 | The status counts of `Dashboard.ComputeStats` satisfy pending + inProgress + resolved <= total, with equality iff every status is Pendiente, En Progreso or Resuelto |
| Dashboard.PriorityCountsBound | web/src/pages/Dashboard.jsx:52-70 | `Dashboard.PriorityCounts`, the Alta, Media and Baja counts over the active list, sum to at most pending + inProgress |
| Dashboard.ResolvedAddsNoPriority | web/src/pages/Dashboard.jsx:52-70 | Adding a Resuelto incident leaves the priority counts unchanged |
| Dashboard.StatusStatsAgree | web/src/pages/Dashboard.jsx:49-63 | `Dashboard.ComputeStatusStats`, the separately kept status counts, equals the counts in `stats` |
| Dashboard.ServerStatusesUncounted | web/src/pages/Dashboard.jsx:49-51 | Incidents stored with the schema's own statuses, Pending or Resolved, are counted nowhere |
| Dashboard.ChartData | web/src/pages/Dashboard.jsx:92-96 | Exactly three bars, Alta, Media and Baja in that order, with the priority counts as values |
| Dashboard.Recent | web/src/pages/Dashboard.jsx:99 | The first min(5, n) incidents in server order |
| UsersPage.WithField | web/src/pages/Users.jsx:66-72 | Only the named form field changes |
| UsersPage.UsersPage.HandleInputChange | web/src/pages/Users.jsx:66-72 | Only the named form field changes; the lists stay as they are |
| UsersPage.SearchKeepsMatchesInOrder | web/src/pages/Users.jsx:53-60 | `UsersPage.SearchResult` with a non-empty term keeps, in order, exactly the users (those meeting `UsersPage.UserMatches`) whose lower-cased name, e-mail or office contains the lower-cased term, each matching user as many times as it was loaded |
| UsersPage.EmptyTermMatchesEveryone | web/src/pages/Users.jsx:61-63 | An empty term shows all users |
| UsersPage.UsersPage.Refilter | web/src/pages/Users.jsx:51-64 | The shown users become the search result; nothing else changes |
| UsersPage.UsersPage.HandleCreateUser | web/src/pages/Users.jsx:74-107 | The corrected create. An invalid form only sets `validated`. Success appends the created user at the end, keeps the others, and resets the form to empty name, e-mail and password, role `user` and office `Malaga`. Failure shows the server's message or the default one |
| UsersPage.UserMemberAsWritten | web/src/pages/Users.jsx:89 | `response.data.user` is undefined exactly when the reply has no `user` member, which no reply of the user handlers has |
| UsersPage.AsWrittenAppendsUndefined | web/src/pages/Users.jsx:89 | On register's success body the page as written reads `undefined` |
| UsersPage.WithoutId | web/src/pages/Users.jsx:113-114 | Keeps exactly the users with a different id, every copy of each, and nothing else |
| UsersPage.WithoutIdKeepsOrder | web/src/pages/Users.jsx:113-114 | Removal keeps the others in order, and removing the same id again changes nothing |
| UsersPage.UsersPage.HandleDeleteUser | web/src/pages/Users.jsx:109-120 | The lists change only after confirmation and a successful call, and then lose that id in both; a failed call sets the error |
| IncidentDetail.EditCopy | web/src/pages/IncidentDetail.jsx:62-67 | The buffer holds title, description, priority and status, with a missing status shown as `Pendiente` |
| IncidentDetail.IncidentMember | web/src/pages/IncidentDetail.jsx:41 | `response.data.incident` is defined exactly for a body that wraps the record in an `incident` member, and is then that record |
| IncidentDetail.Received | web/src/pages/IncidentDetail.jsx:40 | A server body arrives as an incident reply iff it is `getDetail`'s or `update`'s; its `incident` member is defined on the client iff the server's JSON has that member |
| IncidentDetail.IncidentDetailPage.LoadedAsWritten | web/src/pages/IncidentDetail.jsx:36-57 | A wrapped body is shown and copied into the buffer. A bare record leaves the incident undefined and sets the load error, and a failed request sets the load error. Edit mode, selection, file id and both modal flags stay as they were |
| IncidentDetail.DetailLoadAsWrittenFails | web/src/pages/IncidentDetail.jsx:41-50 | Loading any found incident as written ends with no incident and the load error |
| IncidentDetail.IncidentDetailPage.Loaded | web/src/pages/IncidentDetail.jsx:36-57 | Read from `response.data`: the record is shown and copied into the buffer, or a failed request sets the load error; nothing else changes, both modal flags included |
| IncidentDetail.DetailLoadShowsRecord | web/src/pages/IncidentDetail.jsx:41-47 | With the corrected read, `getDetail`'s reply for a found id shows that record and fills the buffer from it |
| IncidentDetail.UpdateReplyHasIncident | web/src/pages/IncidentDetail.jsx:86 | Update's reply does have the `incident` member, so the save reads the updated record |
| IncidentDetail.IncidentDetailPage.HandleEditToggle | web/src/pages/IncidentDetail.jsx:59-69 | The flag flips. Entering edit mode refills the buffer from the incident; leaving it keeps the buffer. Nothing else changes, both modal flags included |
| IncidentDetail.ToggleTwiceKeepsCopy | web/src/pages/IncidentDetail.jsx:59-69 | Entering and leaving edit mode keeps the refilled buffer |
| IncidentDetail.IncidentDetailPage.HandleInputChange | web/src/pages/IncidentDetail.jsx:71-77 | Only the named buffer entry changes; every other field, both modal flags included, stays as it was |
| IncidentDetail.MakePayload | web/src/pages/IncidentDetail.jsx:82-85 | The payload is the buffer's fields with `files` always the incident's current list |
| IncidentDetail.PayloadFilesFromIncident | web/src/pages/IncidentDetail.jsx:82-85 | A `files` entry in the buffer never reaches the payload |
| IncidentDetail.IncidentDetailPage.HandleSaveChanges | web/src/pages/IncidentDetail.jsx:79-94 | Sends PATCH `/incidents/:id` with that payload. Success shows the reply's `incident` member and leaves edit mode; failure sets the save error and changes nothing else. Neither path touches the buffer, the selection, the file id or the modal flags |
| IncidentDetail.IncidentDetailPage.HandleFileChange | web/src/pages/IncidentDetail.jsx:108-110 | The selection replaces the selected files and nothing else changes, both modal flags included |
| IncidentDetail.IncidentDetailPage.HandleUploadFiles | web/src/pages/IncidentDetail.jsx:112-132 | With no selected files nothing is sent and nothing changes; otherwise PATCH `/incidents/:id/files` is sent as multipart. Success shows the reply's incident, clears the selection and closes the upload modal. Failure sets the upload error and changes nothing else. No path touches the delete-file modal |
| IncidentDetail.IncidentDetailPage.SelectFileForDeletion | web/src/pages/IncidentDetail.jsx:390-393 | Remembers the file's public id and opens the confirmation; nothing else changes, the upload modal included |
| IncidentDetail.IncidentDetailPage.HandleDeleteFile | web/src/pages/IncidentDetail.jsx:134-153 | Without a truthy file id nothing is sent and nothing changes. Otherwise DELETE `/incidents/:id/files` is sent with that id. On success the reply's incident replaces the locally filtered one, and the id and modal are cleared. On failure only the removal error is set. No path touches the upload modal |
| IncidentDetail.WithoutFile | web/src/pages/IncidentDetail.jsx:140-143 | Keeps exactly the files whose public id differs from the removed one, every copy of each, and nothing else |
| IncidentDetail.WithoutFileKeepsOrder | web/src/pages/IncidentDetail.jsx:140-143 | The kept files stay in order, and none has the removed id |
| IncidentDetail.DisplayName | web/src/pages/IncidentDetail.jsx:385 | The shown name contains no `/` and is a suffix of the public id |
| IncidentDetail.DisplayNameAfterFolder | web/src/pages/IncidentDetail.jsx:385 | A file stored as `folder/name` is shown as `name` |
| Sidebar.MenuItems | web/src/components/Sidebar.jsx:20-49 | Four entries; Dashboard and Incidencias are always accessible, Usuarios and Oficinas iff the role is exactly `admin` |
| Sidebar.RenderMenu | web/src/components/Sidebar.jsx:52-69 | Only items meeting `Sidebar.Accessible` (their access flag) are rendered, each by `Sidebar.RenderItem`. A rendered link is active iff the current path equals its path exactly, and its label renders iff the sidebar is open |
| Sidebar.RenderAll | web/src/components/Sidebar.jsx:52-78 | One link per item, in the items' order, each the rendering of its item |
| Sidebar.RenderedInOrder | web/src/components/Sidebar.jsx:52-78 | The rendered links are one per accessible item, with the same paths in declaration order, and the accessible items are an order-preserving subsequence of the menu |
| Sidebar.VisibleEntries | web/src/components/Sidebar.jsx:24-78 | Everyone sees Dashboard then Incidencias; an admin sees exactly four links, adding Usuarios then Oficinas, anyone else exactly those two |
| Sidebar.VisibleItems | web/src/components/Sidebar.jsx:20-49 | The accessible entries of the menu are all four for an admin and the first two for anyone else |
| Sidebar.AdminItemsShown | web/src/components/Sidebar.jsx:37-48 | The two admin-only entries are kept together or dropped together |
| Sidebar.TechnicianSeesUserMenu | web/src/components/Sidebar.jsx:20-21 | A technician and a signed-out visitor get the same menu as a plain user |
| Sidebar.ActiveEntry | web/src/components/Sidebar.jsx:58 | On `/incidents` the Incidencias entry is active and Dashboard is not |
| Sidebar.OfficeLine | web/src/components/Sidebar.jsx:113-117 | The office line shows only when the sidebar is open, with the user's office or `No asignada` |
| Pipeline.Serve | api/config/routes.config.js:20-41 | A handler's answer goes out as it is. A forwarded error goes out with the handler's normalised status, message and flattened `errors` |
| Pipeline.CreateAsWrittenIsBadRequest | api/controllers/incidents.controller.js:25-31 | The as-written create ends in 400 "Incident validation failed". Its `errors` name exactly office, name and email, each with the required message |
| Pipeline.CreateAsWrittenEndToEnd | api/controllers/incidents.controller.js:14-33 | Through the store and the error handler the client gets 400, nothing is stored, and the interceptor shows no notice |
| Pipeline.RejectedUploadIsServerError | api/middlewares/upload.middleware.js:70 | A refused file becomes a plain error, answered 500 with the filter's message and shown as the server-error notice |
| Pipeline.UnknownRouteIsNotFound | api/config/routes.config.js:16-18 | A path under no router answers 404 "Route not found", shown as the not-found notice |
| Pipeline.DuplicateEmailStatus | api/controllers/users.controller.js:30-31 | A duplicate e-mail answers 400 through `register`. The `create` handler, which no route reaches, would forward the driver's error unchanged and so answer 500 |
| Pipeline.UserStatusClickForbidden | api/middlewares/checkUserRole.middleware.js:7-9 | A plain user's status click is refused with 403, which the error handler keeps and the client shows as a missing permission |
| Pipeline.UserDetailSaveForbidden | web/src/pages/IncidentDetail.jsx:79-94 | A plain user's save from the detail page is always refused with 403, even when only the title, the description or the priority was edited, because the buffer always carries a truthy status; the client reports it as a missing permission |
| Pipeline.StaffStatusClickLeavesSchema | web/src/pages/Incidents.jsx:241 | A technician's or admin's click passes the guard and stores `En Progreso`, which the schema does not accept |
| Js.Present | api/controllers/users.controller.js:28 | A field contributes its member name to the JSON object exactly when it is defined |
| Js.ToLowerIdempotent | web/src/pages/Incidents.jsx:49 | Lower-casing twice is lower-casing once |
| Js.FilterMultiplicity | web/src/pages/Users.jsx:114 | `filter` keeps every copy: an accepted element occurs in the result as often as in the input, and the result holds nothing else |
| Js.UniqueFirstOccurrences | web/src/pages/Incidents.jsx:103 | `[...new Set(xs)]` has no duplicates, holds every element and keeps first-occurrence order |
| Js.LastSegment | web/src/pages/IncidentDetail.jsx:385 | `split(sep).pop()` contains no separator and is a suffix of the input |

## Left out

- Persistence is modelled by maps. The stores stand in for `find`, `findById`, `findByIdAndUpdate`, `findByIdAndDelete` and `save`. Real Mongo behaviour is out: connections, `_id` generation, timestamps and concurrent writers.
- Malformed ids are out of the handlers. Ids are counters, so a handler never meets a malformed id string; the `CastError` it would raise is modelled only in the error handler.
- The user model is not part of this model. Its validation enters `UserStore.Create` and `UserStore.Register` as the `modelError` parameter; its defaults (such as a default role) and its password hashing are left out.
- Cloudinary and multer storage are out: the upload itself and the `allowedFormats` list (upload.middleware.js:17-30). That list is enforced by the storage provider.
- The byte limit is a constant only: multer's enforcement of it is not modelled.
- Five handlers are named by routes but defined by neither controller file: `addFiles` and `removeFile` (incidents.routes.js:15, 17), and `deleteUser`, `changePassword` and `getAllUsers` (users.routes.js:10, 16, 19). Express refuses to register a route whose callback is undefined, so both routers throw when they are loaded and the server as shipped does not start. The model, the Pipeline lemmas included, describes the server as if those routes were absent. Only the client's calls to these five are modelled. session.middleware.js is not part of this model.
- The conversion from a stored document to the record a client page holds is abstract. `IncidentDetail.Received` takes the client record as a parameter, so nothing ties the record shown to the stored document's fields.
- `exports.user` (users.controller.js:61-64) is absent: it is exported but no route uses it, and it only sends a fixed text.
- `create` and `getProfile` (users.controller.js:4-21, 57-59) are modelled, but no route reaches them either: POST `/users` goes to `register` and GET `/users/me` to `profile` (users.routes.js:7-16). What the model states about `create`, such as its 500 for a duplicate e-mail, describes a handler no request reaches.
- Server bootstrap, the router files and the client's router wiring are out. The sole exception is the mount table used by the fallback.
- Network I/O, toasts, `console.error`, loading flags and modal visibility are out, except where a handler's state includes them.
- The page handlers take the reply, or its absence, as a parameter. The detail page's load and save take the reply body and read its `incident` member as the code does. The upload and file-removal handlers take that member directly, because the handlers answering them are not shown. `window.confirm` and form validity are parameters too.
- Client pages that only render forms are out: login, navbar, layout, profile, create incident and the auth context.
- The dashboard's pie-chart percentages are out: floating point, and a division by zero with no incidents.
- `handleDeleteIncident` on the detail page is out: a request followed by navigation.
- The refresh after a status change (Incidents.jsx:79) is out: it calls a function defined only inside the load effect, so it never runs.
- The minified date library bundle under `web/dist` is out.
- Js.ToLower: lower-cases ASCII and Latin-1 capitals only; other Unicode case mappings are not modelled.
- IncidentModel.Incident: the creation date and the schema's timestamps are not fields of the model.
- Errors.CreateError: the library's clamping of statuses outside 400-599 is not modelled; every status used here is in range.
- IncidentModel.ValidationFailures: the text of the validation error's overall message is simplified to "Incident validation failed", without the per-path suffix Mongoose appends.
- IncidentsPage.MatchesTerm: client text fields are strings. A missing title, description, name or e-mail would make the page throw, and that is not modelled.
- UsersPage.UserMatches: client text fields are strings. A missing name, e-mail or office would make the page throw, and that is not modelled.

## Findings

| source | as written | input that shows it | evidently intended | confidence | as-written member | corrected member |
|---|---|---|---|---|---|---|
| api/controllers/incidents.controller.js:25 | `create` builds the incident from title and description only. The schema requires office, name and email (api/models/incident.model.js:18-29), so every save fails validation and the handler answers 400 | any body, e.g. title "a" and description "b" | office, name and email taken from the signed-in user or the body, so that a valid request is stored | not executed | IncidentsController.DraftAsWrittenNeverValid | IncidentsController.IncidentStore.CreateForCaller |
| web/src/pages/Users.jsx:89 | The page appends `response.data.user`. But POST `/users` is routed to `register` (api/routes/users.routes.js:7), whose success body is the user itself (api/controllers/users.controller.js:28), so the list gains `undefined` | any successful create, e.g. a reply of `User("Ana", "ana@x.es", ...)` | append the created user, `response.data` | not executed | UsersPage.AsWrittenAppendsUndefined | UsersPage.UsersPage.HandleCreateUser |
| web/src/pages/IncidentDetail.jsx:41 | The page stores `response.data.incident` and reads its title. But GET `/incidents/:id` is routed to `getDetail` (api/routes/incidents.routes.js:19), which sends the bare record (api/controllers/incidents.controller.js:44). So the incident is undefined, the read at line 43 throws, and the page shows the load error on every visit; none of the detail handlers can then be used | any found id, e.g. a store holding one valid incident under that id | read the record from `response.data` | not executed | IncidentDetail.DetailLoadAsWrittenFails | IncidentDetail.IncidentDetailPage.Loaded |

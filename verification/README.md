# ClickUp gateway core, modelled in Dafny

This project models the logic of a NestJS gateway that sits in front of the
ClickUp REST API, and proves properties of that model. The gateway has five
parts:

- **The upstream client** (`ClickUpBase`). It reads its configuration and
  builds each request: the base URL followed by the endpoint, plus the
  default headers merged with the caller's. It returns `response.data` on
  success. Every failure becomes one `HttpException`, through
  `normalizeError` and `extractErrorMessage`.
- **The resource services** (`TasksService`, `ListsService`,
  `SpacesService`, `ClickUpUsersService`). Each operation builds one upstream
  call: a verb, an endpoint written as a template literal with an optional
  `URLSearchParams` query, and, for writes, the body.
- **The ClickUp controllers** (`TasksController`, `ListsController`,
  `SpacesController`, `ClickUpUsersController`). Read routes delegate to
  their service. Every write route under tasks, lists and spaces throws 503
  `This feature is currently disabled`. The workspace-user routes are all
  live. The task reads wrap their errors a second time, and the task routes
  sit behind the JWT guard and then the roles guard.
- **Role-based access** (`RolesGuard`). The three roles, and `canActivate`
  over handler and class `@Roles` metadata.
- **Local authentication** (`UserStore`, `AuthService`, `AuthController`).
  An in-memory store of users keyed by unique email, plus an append-only
  usage log. On top of it: `validateUser`, `login` (token payload and a user
  view without the password hash), `register` (duplicate rejection, default
  role VIEWER) and `profile`.

Four layers describe the JavaScript and web-platform behaviour the code
relies on:

- `JsValue`: values, truthiness, `String.prototype.trim` and integer
  `toString`.
- `JsonText`: `JSON.stringify`, as in section 25.5.2 of ECMA-262.
- `Utf8` and `FormUrlEncoded`: the application/x-www-form-urlencoded
  serializer of section 5.2 of the WHATWG URL Standard, which
  `URLSearchParams.prototype.toString` uses, and the parser of section 5.1 as
  its partner.
- `UpstreamTarget`: reads an endpoint back as path segments and query
  entries. For ids that the WHATWG URL parser keeps as one segment
  (`SegmentSafe`), these are the segments the upstream receives. Such an id
  has no `/`, `\`, `?`, `#`, control character or space, and is not a
  dot segment such as `..` or `%2e`.

The services' contracts are stated through `UpstreamTarget.Read`, which is
independent of how the endpoints are written. For every operation, and for
every id that stays one path segment, the endpoint reads back as exactly the
intended segments and query entries. Each controller also has a route table
that maps its requests to the upstream resources they reach. A lemma
connects every route to its row of the table.

Side effects are parameters of the model:

- The HTTP transport is a function from request to response or thrown value.
- bcrypt's `hash` and `compare` are functions, and so is JWT signing.
- The clock is a `now` argument.
- The database is a value of type `UserStore.Store`.

## Model

| member | source | states |
|---|---|---|
| ClickUpBase.MakeConfig | src/clickup/common/services/clickup-base.service.ts:17-26 | fails with `CLICKUP_API_TOKEN is required` exactly when the token is missing or empty; a missing or empty base URL becomes `https://api.clickup.com/api/v2`, a given one is kept |
| ClickUpBase.Headers | src/clickup/common/services/clickup-base.service.ts:36-40 | the headers are the caller's keys plus `Authorization` and `Content-Type`; caller values win; otherwise the token and `application/json` |
| ClickUpBase.BuildRequest | src/clickup/common/services/clickup-base.service.ts:33-41 | the URL splits into exactly the base URL followed by the endpoint; verb and body are those of the call |
| ClickUpBase.Execute | src/clickup/common/services/clickup-base.service.ts:45-52 | success exactly when the transport succeeds, with `response.data` unchanged; a failure is the normalised error of what was thrown |
| ClickUpBase.FirstUsable | src/clickup/common/services/clickup-base.service.ts:189-194 | the position of the first candidate whose value is a non-blank string; every earlier candidate is unusable |
| ClickUpBase.UsableIffTrimmed | src/clickup/common/services/clickup-base.service.ts:191 | a candidate is usable exactly when it is a string whose trim is non-empty |
| ClickUpBase.ExtractErrorMessage | src/clickup/common/services/clickup-base.service.ts:177-198 | nothing for a falsy body; a string body as it is, even blank; for an object the first of `message`, `error`, `err`, `description` holding a non-blank string, none exactly when no candidate qualifies; nothing for other values |
| ClickUpBase.NormalizeError | src/clickup/common/services/clickup-base.service.ts:145-175 | axios errors take precedence: upstream status or 500, body message or transport message; otherwise an `HttpException` passes through unchanged; otherwise an `Error` becomes 500 with its message; anything else becomes 500 `Unexpected error occurred while calling ClickUp` |
| ClickUpBase.NormalizeIdempotent | src/clickup/common/services/clickup-base.service.ts:158-161 | normalising an already normalised exception gives it back unchanged, so errors are never wrapped twice |
| ClickUpBase.NormalizedStatus | src/clickup/common/services/clickup-base.service.ts:150-174 | a normalised status is the upstream's, that of the exception that passed through, or 500 |
| JsValue.Lookup | src/clickup/common/services/clickup-base.service.ts:190 | a property read finds a field with that key, or is `undefined` when no field has it |
| JsValue.LookupUnique | src/clickup/common/services/clickup-base.service.ts:190 | in an object whose keys are unique, a property read gives exactly the value stored under that key |
| JsValue.TrimStart | src/clickup/common/services/clickup-base.service.ts:191 | the result is a suffix that begins with a non-space, and everything removed is whitespace |
| JsValue.TrimEnd | src/clickup/common/services/clickup-base.service.ts:191 | the result is a prefix that ends with a non-space, and everything removed is whitespace |
| JsValue.TrimEmptyIffBlank | src/clickup/common/services/clickup-base.service.ts:191 | `trim()` is non-empty exactly when the string has a non-whitespace character |
| JsValue.DecimalRoundTrip | src/clickup/tasks/tasks.service.ts:47 | the decimal text of an integer parses back to that integer |
| JsonText.Stringify | src/clickup/tasks/tasks.service.ts:45 | `JSON.stringify` gives text for every value except `undefined` |
| JsonText.UnescapeEscape | src/clickup/tasks/tasks.service.ts:45 | the escaped body of a JSON string literal reads back as the original string |
| JsonText.QuoteInjective | src/clickup/tasks/tasks.service.ts:45 | two different strings never print as the same literal |
| Utf8.DecodeEncode | src/clickup/tasks/tasks.service.ts:53 | the UTF-8 bytes of a string decode back to the string |
| FormUrlEncoded.EncodeComponent | src/clickup/tasks/tasks.service.ts:53 | an encoded name or value holds only alphanumerics and `+ % * - . _`, so never `&`, `=`, `?`, `/` or `#` |
| FormUrlEncoded.DecodeEncodeComponent | src/clickup/tasks/tasks.service.ts:53 | an encoded name or value decodes back to itself |
| FormUrlEncoded.SerializeEmptyIff | src/clickup/tasks/tasks.service.ts:53 | the serialised query is empty exactly when no entry was appended |
| FormUrlEncoded.ParseSerialize | src/clickup/tasks/tasks.service.ts:39-53 | parsing the serialised query gives back every appended entry, in order, whatever characters it holds |
| FormUrlEncoded.SerializeInjective | src/clickup/tasks/tasks.service.ts:53 | two different entry lists never serialise to the same query |
| QueryParams.Collect | src/clickup/tasks/tasks.service.ts:41-50 | exactly one entry per property whose value is defined |
| QueryParams.CollectSound | src/clickup/tasks/tasks.service.ts:42-48 | the `j`-th appended entry is the name and rendered value of the `j`-th defined property |
| QueryParams.CollectComplete | src/clickup/tasks/tasks.service.ts:42-48 | every defined property is appended, with its own name and rendered value |
| QueryParams.CollectAppend | src/clickup/tasks/tasks.service.ts:42 | entries follow the order of the params object's properties |
| QueryParams.CollectEmptyIff | src/clickup/tasks/tasks.service.ts:43 | no entry is appended exactly when every value is `undefined` |
| QueryParams.ArchivedQuery | src/clickup/lists/lists.service.ts:28-30 | no entry when `archived` is undefined, else one `archived` entry whose value is `true` or `false` as the flag is |
| UpstreamTarget.QuerySuffix | src/clickup/tasks/tasks.service.ts:53 | the `?query` suffix is empty exactly when there is no entry |
| UpstreamTarget.ReadEndpoint | src/clickup/tasks/tasks.service.ts:53 | a path of segments that the URL parser keeps as they are, followed by the query suffix, reads back as exactly those segments and entries |
| UpstreamTarget.UnsafeIds | src/clickup/tasks/tasks.service.ts:53 | the dot segments `.`, `..` and their `%2e` spellings, and ids holding `\`, tab, LF or CR, are not safe segments |
| TasksService.GetTasksByListId | src/clickup/tasks/tasks.service.ts:18-55 | one GET without body; for a safe id, the upstream receives `list/{listId}/task` and the defined params in order, arrays as JSON text |
| TasksService.TaskEndpoint | src/clickup/tasks/tasks.service.ts:78 | for a safe id, the endpoint reads back as `task/{taskId}` with the defined params in order, all through `toString` |
| TasksService.GetTaskById | src/clickup/tasks/tasks.service.ts:60-80 | one GET without body to `task/{taskId}`, params through `toString` only |
| TasksService.CreateTask | src/clickup/tasks/tasks.service.ts:85-105 | one POST carrying the task unchanged to `list/{listId}/task`, params through `toString` |
| TasksService.UpdateTask | src/clickup/tasks/tasks.service.ts:110-130 | one PUT carrying the changes unchanged to `task/{taskId}` |
| TasksService.DeleteTask | src/clickup/tasks/tasks.service.ts:135-154 | one DELETE without body to `task/{taskId}` |
| TasksService.ArraysDifferBetweenOperations | src/clickup/tasks/tasks.service.ts:44-47 | for every array, the task-list read sends its JSON text and the other task operations send its comma join; for every array without objects the two differ |
| JsonText.ArrayTextLonger | src/clickup/tasks/tasks.service.ts:45 | for an array without objects, `JSON.stringify` gives strictly longer text than the comma join of `toString` |
| ListsService.GetListsBySpaceId | src/clickup/lists/lists.service.ts:20-34 | one GET to `space/{spaceId}/list`, with the `archived` entry only when it is defined |
| ListsService.GetListsByFolderId | src/clickup/lists/lists.service.ts:39-53 | one GET to `folder/{folderId}/list`, with the `archived` entry only when it is defined |
| ListsService.ListEndpoint | src/clickup/lists/lists.service.ts:59 | for a safe id, `/list/{listId}` reads back as `list/{listId}` with no query |
| ListsService.GetListById | src/clickup/lists/lists.service.ts:58-61 | one GET without body to `list/{listId}`, no query |
| ListsService.CreateListInFolder | src/clickup/lists/lists.service.ts:66-80 | one POST carrying the list unchanged to `folder/{folderId}/list` |
| ListsService.CreateListInSpace | src/clickup/lists/lists.service.ts:85-99 | one POST carrying the list unchanged to `space/{spaceId}/list` |
| ListsService.UpdateList | src/clickup/lists/lists.service.ts:104-118 | one PUT carrying the changes unchanged to `list/{listId}` |
| ListsService.DeleteList | src/clickup/lists/lists.service.ts:123-126 | one DELETE without body to `list/{listId}` |
| ListsService.IdsAreNotEscaped | src/clickup/lists/lists.service.ts:59 | ids are interpolated verbatim: the list `{a}/task` addresses the same endpoint as the task list of list `a` |
| SpacesService.GetSpaces | src/clickup/spaces/spaces.service.ts:17-31 | one GET to `team/{workspaceId}/space`, with the `archived` entry only when it is defined |
| SpacesService.SpaceEndpoint | src/clickup/spaces/spaces.service.ts:37 | for a safe id, `/space/{spaceId}` reads back as `space/{spaceId}` with no query |
| SpacesService.GetSpaceById | src/clickup/spaces/spaces.service.ts:36-39 | one GET without body to `space/{spaceId}` |
| SpacesService.CreateSpace | src/clickup/spaces/spaces.service.ts:44-54 | one POST carrying the space unchanged to `team/{workspaceId}/space`, no query |
| SpacesService.UpdateSpace | src/clickup/spaces/spaces.service.ts:59-72 | one PUT carrying the changes unchanged to `space/{spaceId}` |
| SpacesService.DeleteSpace | src/clickup/spaces/spaces.service.ts:77-80 | one DELETE without body to `space/{spaceId}` |
| ClickUpUsersService.GetAuthorizedWorkspaces | src/clickup/users/users.service.ts:20-23 | one GET without body to `team` |
| ClickUpUsersService.GetCurrentUser | src/clickup/users/users.service.ts:28-31 | one GET without body to `user` |
| ClickUpUsersService.GetWorkspaceMembers | src/clickup/users/users.service.ts:36-41 | one GET without body to `team/{workspaceId}` |
| ClickUpUsersService.InviteUserToWorkspace | src/clickup/users/users.service.ts:46-56 | one POST carrying the invitation unchanged to `team/{workspaceId}/user` |
| ClickUpUsersService.MemberEndpoint | src/clickup/users/users.service.ts:65 | for safe ids, the member path reads back as `team/{workspaceId}/user/{userId}` |
| ClickUpUsersService.RemoveUserFromWorkspace | src/clickup/users/users.service.ts:61-67 | one DELETE without body to `team/{workspaceId}/user/{userId}` |
| ClickUpUsersService.UpdateUserRole | src/clickup/users/users.service.ts:72-82 | one PUT carrying the role unchanged to `team/{workspaceId}/user/{userId}` |
| TasksController.TaskListParams | src/clickup/tasks/tasks.controller.ts:57-64 | the params object has the keys `archived`, `page`, `order_by`, `reverse`, `subtasks`, `include_closed` in that order, each defined exactly when its query value is; any `order_by` string is forwarded as it is |
| TasksController.OrderByForwarded | src/clickup/tasks/tasks.controller.ts:52-66 | whatever string `order_by` holds, the task-list read sends it upstream unchanged as the `order_by` query entry |
| TasksController.TaskParams | src/clickup/tasks/tasks.controller.ts:91-95 | the params object has the keys `custom_task_ids`, `team_id`, `include_subtasks` in that order, each defined exactly when its query value is |
| TasksController.Rewrap | src/clickup/tasks/tasks.controller.ts:68-71 | the caught message when it is truthy, else the fixed message; the caught status when present and non-zero, else 500 |
| TasksController.RewrapNeverEmpty | src/clickup/tasks/tasks.controller.ts:69-70 | a re-wrapped error always has a truthy message and a non-zero status, and 500 whenever the caught record has no status |
| TasksController.ReadAndRewrap | src/clickup/tasks/tasks.controller.ts:66-73 | one service call; its data on success; on failure the re-wrap of what the handler reads off the caught exception |
| TasksController.GetTasksByListId | src/clickup/tasks/tasks.controller.ts:48-74 | calls the task-list operation with the id and the six-key params object, `order_by` being any string; `Failed to fetch tasks` is the fallback message |
| TasksController.GetTaskById | src/clickup/tasks/tasks.controller.ts:85-105 | calls the single-task read with the id and the three-key params object; `Failed to fetch task` is the fallback message |
| TasksController.CreateTask | src/clickup/tasks/tasks.controller.ts:115-125 | no upstream call, and 503 `This feature is currently disabled` whatever the input |
| TasksController.UpdateTask | src/clickup/tasks/tasks.controller.ts:136-146 | no upstream call, and 503 `This feature is currently disabled` whatever the input |
| TasksController.DeleteTask | src/clickup/tasks/tasks.controller.ts:156-165 | no upstream call, and 503 `This feature is currently disabled` whatever the input |
| TasksController.OnlyReadsReachUpstream | src/clickup/tasks/tasks.controller.ts:36-165 | a task route reaches the upstream exactly when its method is GET, then with one GET call; every other route ends in 503 |
| TasksController.ReadsReachTheirResource | src/clickup/tasks/tasks.controller.ts:36-105 | exactly the GET routes reach a resource; with a safe id, `GET api/tasks/list/:listId` reaches `list/{listId}/task` with its six query values and `GET api/tasks/:taskId` reaches `task/{taskId}` with its three |
| TasksController.Guarded | src/clickup/tasks/tasks.controller.ts:31 | the JWT guard runs first: without a user, 401 and no call; then the roles guard (403 when it refuses); then the handler |
| TasksController.GuardsAdmitAuthenticated | src/clickup/tasks/tasks.controller.ts:27-32 | no request without a user reaches the upstream; with no `@Roles` metadata on these routes, every authenticated user reaches the handler |
| ListsController.GetListsBySpaceId | src/clickup/lists/lists.controller.ts:35-40 | forwards the space id and `{ archived }` unchanged and returns the service's result as it is |
| ListsController.GetListsByFolderId | src/clickup/lists/lists.controller.ts:48-53 | forwards the folder id and `{ archived }` unchanged and returns the service's result as it is |
| ListsController.GetListById | src/clickup/lists/lists.controller.ts:61-63 | forwards the list id unchanged |
| ListsController.CreateListInFolder | src/clickup/lists/lists.controller.ts:71-81 | no upstream call, and 503 `This feature is currently disabled` |
| ListsController.CreateListInSpace | src/clickup/lists/lists.controller.ts:89-99 | no upstream call, and 503 `This feature is currently disabled` |
| ListsController.UpdateList | src/clickup/lists/lists.controller.ts:108-118 | no upstream call, and 503 `This feature is currently disabled` |
| ListsController.DeleteList | src/clickup/lists/lists.controller.ts:126-132 | no upstream call, and 503 `This feature is currently disabled` |
| ListsController.OnlyReadsReachUpstream | src/clickup/lists/lists.controller.ts:29-132 | a list route reaches the upstream exactly when its method is GET, with one GET call whose result it returns unchanged; every other route ends in 503 |
| ListsController.ReadsReachTheirResource | src/clickup/lists/lists.controller.ts:29-63 | exactly the GET routes reach a resource: `space/{id}/list` and `folder/{id}/list` with `archived` when given, and `list/{id}` |
| SpacesController.GetSpaces | src/clickup/spaces/spaces.controller.ts:35-40 | forwards the workspace id and `{ archived }` unchanged |
| SpacesController.GetSpaceById | src/clickup/spaces/spaces.controller.ts:48-50 | forwards the space id unchanged |
| SpacesController.CreateSpace | src/clickup/spaces/spaces.controller.ts:58-69 | no upstream call, and 503 `This feature is currently disabled` |
| SpacesController.UpdateSpace | src/clickup/spaces/spaces.controller.ts:78-88 | no upstream call, and 503 `This feature is currently disabled` |
| SpacesController.DeleteSpace | src/clickup/spaces/spaces.controller.ts:96-102 | no upstream call, and 503 `This feature is currently disabled` |
| SpacesController.OnlyReadsReachUpstream | src/clickup/spaces/spaces.controller.ts:29-102 | a space route reaches the upstream exactly when its method is GET; every other route ends in 503 |
| SpacesController.ReadsReachTheirResource | src/clickup/spaces/spaces.controller.ts:29-50 | exactly the GET routes reach a resource: `team/{workspaceId}/space` with `archived` when given, and `space/{spaceId}` |
| ClickUpUsersController.GetAuthorizedWorkspaces | src/clickup/users/users.controller.ts:37-39 | delegates with no argument |
| ClickUpUsersController.GetCurrentUser | src/clickup/users/users.controller.ts:45-47 | delegates with no argument |
| ClickUpUsersController.GetWorkspaceMembers | src/clickup/users/users.controller.ts:54-58 | forwards the workspace id unchanged |
| ClickUpUsersController.InviteUserToWorkspace | src/clickup/users/users.controller.ts:66-72 | live: forwards the workspace id and the body unchanged |
| ClickUpUsersController.RemoveUserFromWorkspace | src/clickup/users/users.controller.ts:81-86 | forwards both ids in order |
| ClickUpUsersController.UpdateUserRole | src/clickup/users/users.controller.ts:96-102 | forwards both ids and the body unchanged |
| ClickUpUsersController.EveryRouteIsLive | src/clickup/users/users.controller.ts:30-102 | every route makes exactly one upstream call, with its own route's verb, and returns the result unchanged |
| ClickUpUsersController.RoutesReachTheirResource | src/clickup/users/users.controller.ts:30-102 | every route reaches its resource in the route table (`team`, `user`, `team/{w}`, `team/{w}/user`, `team/{w}/user/{u}`) with no query, and carries a body exactly for POST and PUT |
| ClickUpUsersController.RemoveAndRoleShareTarget | src/clickup/users/users.service.ts:61-82 | removing a member and changing its role use the same endpoint and differ in verb (DELETE, PUT) |
| RolesGuard.ThreeRoles | src/auth/roles.guard.ts:5-9 | there are exactly three roles |
| RolesGuard.RequiredRoles | src/auth/roles.guard.ts:19-22 | the handler's metadata when it has any, else the class's |
| RolesGuard.AnyRole | src/auth/roles.guard.ts:29 | `some` holds exactly when there is a user and its role is in the list |
| RolesGuard.CanActivate | src/auth/roles.guard.ts:18-30 | with no metadata every request passes; otherwise exactly the users whose role is required pass |
| RolesGuard.DenialCases | src/auth/roles.guard.ts:28-29 | an empty role list denies everyone; a missing user is denied whenever roles are required |
| RolesGuard.HandlerOverridesClass | src/auth/roles.guard.ts:19-22 | handler metadata overrides the class's, even when the class admits more roles |
| UserStore.FindByEmail | src/users/users.service.ts:10-14 | the stored user with that email, or none exactly when there is none |
| UserStore.CreateUser | src/users/users.service.ts:22-36 | stores `hash(password)`, never the password; role as given or VIEWER; exactly one new user; a duplicate email violates uniqueness |
| UserStore.CreateUserValid | src/users/users.service.ts:22-36 | creating keeps the schema invariants; the email then finds the new user and every other email finds what it did before |
| UserStore.ValidatePassword | src/users/users.service.ts:38-40 | the verdict is bcrypt's comparison of the password with the stored hash |
| UserStore.CreatedUserValidates | src/users/users.service.ts:22-40 | a new user validates with its own password under a comparison that accepts each password against its hash |
| UserStore.LogApiUsage | src/users/users.service.ts:42-56 | appends exactly one entry `{userId, endpoint, method, statusCode}` and changes no user; an unknown user violates the foreign key |
| UserStore.LogApiUsageValid | src/users/users.service.ts:42-56 | logging keeps the schema invariants |
| AuthService.ValidateUser | src/auth/auth.service.ts:19-25 | the user exactly when one has the email and the password verifies against its hash, else none |
| AuthService.Payload | src/auth/auth.service.ts:30-34 | the token claims are the user's id, email and role |
| AuthService.Sanitize | src/auth/auth.service.ts:35-36 | every field but the password hash, unchanged |
| AuthService.SanitizeDropsOnlyHash | src/auth/auth.service.ts:35-41 | the sanitised view and the hash give back the stored user, so only the hash is dropped |
| AuthService.Login | src/auth/auth.service.ts:27-42 | the token signs the user's claims and the user is the sanitised view |
| AuthService.TokenCarriesIdentity | src/auth/auth.service.ts:30-39 | with a verifier that reads back what was signed, the login token carries the user's id, email and role |
| AuthService.Register | src/auth/auth.service.ts:44-55 | an existing email gives 401 `Email already exists` and no record; a new one creates the user with the same email, password and role |
| AuthService.RegisterThenValidate | src/auth/auth.service.ts:19-55 | a registered user validates with its email and password |
| AuthService.RegisterTwiceFails | src/auth/auth.service.ts:49-52 | a second registration of the same email fails whatever the password or role |
| AuthController.Login | src/auth/auth.controller.ts:34-53 | 401 `Invalid credentials` exactly when validation fails, else the login of the stored user |
| AuthController.Register | src/auth/auth.controller.ts:55-70 | the role defaults to VIEWER; the new user is the only change to the store, and the log is untouched; the response is that user, with its email and without its hash; duplicates get 401 |
| AuthController.Profile | src/auth/auth.controller.ts:72-81 | 401 from the JWT guard without a user, else that user without its hash and otherwise unchanged |
| AuthController.RegisterThenLogin | src/auth/auth.controller.ts:34-70 | a registered user can log in, and the login shows the same user view as the registration |

## Left out

- HTTP transport, axios and RxJS: a transport is a function from request to
  response or thrown value, and an `Observable` is its single result.
- Logging: the debug and error logs of the base client are side effects only.
- The `cause` option of the exceptions the base client builds: it is not
  part of the exception's response or status.
- ClickUpBase.Headers: header names are compared exactly. HTTP header names
  are case-insensitive, so a caller's `authorization` would not replace
  `Authorization` here.
- bcrypt and JWT: hashing, comparison, signing and verification are function
  parameters. bcrypt's random salt is folded into the hash function.
  Properties that need bcrypt or JWT behaviour take it as a hypothesis.
- The JWT guard and its strategy: their source is not part of this model.
  The guard's verdict is the authenticated user it attaches, or its absence.
  The 401 and 403 bodies are those NestJS uses by default.
- TasksController.Rewrap: the fields `error.response.data.message` and
  `error.response.status` of the exception the handler catches depend on
  `HttpException` internals. The model reads them through a `view` parameter,
  so it does not claim whether the upstream status survives.
- Prisma and PostgreSQL: the store is a value. The register
  check-then-create race and concurrent writers are not modelled.
- `findById` of the user store: none of the modelled components calls it.
- The API logging middleware, the application info and health routes,
  bootstrap, Swagger, module wiring and DTO validation: these are
  framework-driven.
- Numbers are integers, so the floating-point and exponent forms of
  `toString` and `JSON.stringify` are not modelled.
- A query value of `null` makes the source's `toString` throw. The model's
  parameters have no null value.
- TasksService.GetTasksByListId: the read-back contract, like every service
  operation's, holds only for `SegmentSafe` ids. Those ids have no `/`,
  `\`, `?`, `#`, control character or space, and are not `.`, `..` or a
  `%2e` spelling of them. The URL parser splits, strips or resolves the
  other ids, and `Read` does not model that. Ids are interpolated verbatim,
  and `ListsService.IdsAreNotEscaped` shows the effect.
- UpstreamTarget.ReadEndpoint: segments are compared before the URL parser
  percent-encodes the characters of its path percent-encode set, such as `"`,
  `<`, `>` and non-ASCII characters. That encoding changes how a segment is
  spelled, but not where the segments begin and end.
- FormUrlEncoded.DecodeComponent: the reader rejects ill-formed UTF-8
  instead of substituting U+FFFD. It is only the partner of the serializer,
  which never produces ill-formed UTF-8.

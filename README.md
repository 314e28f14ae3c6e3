# PetroBol fuel-station client — a Dafny model of its core

PetroBol's web client is a thin front end for a fuel-station REST backend.
It lets visitors browse stations and lets signed-in staff manage stations,
users and fuel types. This project models the logic of that client that can be
stated and proved, module by module:

- **Schemas**: the record validators of `types/index.ts`.
  - Each entity has a create schema, an update schema (the create schema with every field optional) and a response schema (the base plus an id and two timestamps).
  - It also covers login normalisation, the session user, and the raw login response.
- **Permissions**: the role check `hasPermission`.
- **Session**: the authentication context.
  - Browser storage is a `map<string, string>`.
  - It covers `saveSession`, `logout`, `restoreSession`, and `login`/`register` on top of the auth service.
- **AuthService**: login with response validation and mapping, and register-then-login.
- **Api**: the HTTP client's two interceptors.
  - The request interceptor attaches the stored token as bearer credentials (section 2.1 of RFC 6750).
  - The response interceptor classifies the error.
- **StationService**: the station service of `service/fuelStationCreateSchema.ts`.
  - Its own, stricter schemas.
  - Validation before sending.
  - `handleError`.
- **Endpoints**: the path table and its `byId` builders.
- **Hero**: the carousel index.
- **AuthPage**: the sign-in / sign-up form.
- **StationsDashboard** and **UsersDashboard**: the two dashboard lists. They share **Paging**, the `ceil(total/10)` page count and the prev/next clamp.
- **NewUserPage**: the user creation form.
- **FuelTypesPage**: the create-or-edit fuel type form.
- **ProfilePage**: the profile and password forms.
- **PublicStations**: the public station list and its fuel icons.

Pure code (the schemas, mappers, classifiers and path builders) is modelled as
functions and lemmas. Components and providers that keep state are modelled as
classes whose methods update fields. This covers the React pages, the auth
provider and the axios request config.

Things outside the model's reach are parameters:

- backend answers;
- JSON text conversion (`Js.Codec`);
- the e-mail, URL and date-time format checks of the validation library (`Schemas.Checks`);
- user confirmations.

Calls the code makes are recorded, either in a trace (`calls`) or in a
sequence field, so "nothing was sent" is a provable statement. JavaScript
values are the `Js.Value` datatype:

- truthiness is `Js.Truthy`;
- a property read that throws (on `null`/`undefined`) is `Js.Get` returning None;
- numbers are `real`.

## Model

| member | source | states |
|---|---|---|
| Schemas.FuelStationUpdateIsPartial | types/index.ts:7-17 | the empty update is valid; a station record is valid iff it is valid as an update; patching a valid record keeps it valid iff the patch is a valid update |
| Schemas.FuelStationResponseExtendsBase | types/index.ts:18-22 | a response is valid iff its base is valid, its id is a positive integer and both stamps are date-times; a valid response's id is a whole number of at least 1 |
| Schemas.FuelStationBoundaries | types/index.ts:8-12 | the 2- and 255-character bounds of name, municipality and address and the ±90/±180 bounds are inclusive, and one step beyond each of the ten bounds is rejected |
| Schemas.FuelTypeUpdateIsPartial | types/index.ts:32-38 | the same partial-update law for fuel types (name 2..50, description 2..255) |
| Schemas.FuelAvailabilityBounds | types/index.ts:52-56 | a valid availability has a non-negative quantity and positive integer station and fuel-type ids |
| Schemas.FuelAvailabilityUpdateIsPartial | types/index.ts:52-59 | the partial-update law for fuel availability |
| Schemas.RoleUpdateIsPartial | types/index.ts:77-83 | the partial-update law for roles, with a nullable optional description |
| Schemas.ValidUserFields | types/index.ts:97-105 | a valid user has name 2..255, password 6..255, email at most 255, lastName 2..255 when present, phone at most 20 when given, and positive role and station ids when given |
| Schemas.MinimalUserIsValid | types/index.ts:97-105 | name, e-mail and password within bounds suffice; phone and station may be absent or null |
| Schemas.UserUpdateIsPartial | types/index.ts:97-108 | the partial-update law for users |
| Schemas.NotificationUpdateIsPartial | types/index.ts:122-130 | the partial-update law for station notifications |
| Schemas.StationImageUpdateIsPartial | types/index.ts:151-158 | the partial-update law for station images |
| Schemas.ParseLogin | types/index.ts:172-185 | accepted iff the e-mail is well formed and at most 255 long and the password has at least 6 characters, one of them not white space; the result is the lower-cased, trimmed e-mail and the trimmed password; a rejection lists the issues |
| Schemas.NormalizeEmailIdempotent | types/index.ts:177 | normalising an already normalised e-mail changes nothing |
| Schemas.AcceptedPasswordNotEmpty | types/index.ts:178-184 | an accepted password is never empty after trimming |
| Schemas.AcceptedPasswordMayBeShort | types/index.ts:180-184 | the length check runs before trimming, so "     a" is accepted as "a" |
| Schemas.ParseSessionUser | types/index.ts:192-198 | accepted iff the value is an object with a numeric id, a well-formed e-mail string, a role string, and name and lastName each missing, undefined or a string; the parsed id, e-mail, role and names are the object's |
| Schemas.SessionUserIgnoresOtherKeys | types/index.ts:192-198 | keys outside the schema are dropped: adding or changing one never changes the outcome |
| Schemas.SessionUserRoundTrip | types/index.ts:192-198 | a session user with a well-formed e-mail parses back from its object unchanged, optional names included |
| Schemas.ParseLoginUserInfo | types/index.ts:231-235 | accepted iff the value is an object with a numeric id, a well-formed e-mail string and a role string; the parsed fields are the object's |
| Schemas.ParseLoginResponse | types/index.ts:225-235 | accepted iff the value is an object with string access_token, refresh_token and token_type, a numeric expires_in and an acceptable user; every parsed field, the user's id, e-mail and role included, is the object's |
| Schemas.LoginResponseRoundTrip | types/index.ts:225-235 | a login response parses back from its object unchanged |
| Text.TrimStart | types/index.ts:184 | what is left is a suffix of the input |
| Text.TrimEnd | types/index.ts:184 | what is left is a prefix of the input |
| Text.TrimStartCut | types/index.ts:184 | TrimStart removes only white space and stops at the first other character |
| Text.TrimEndCut | types/index.ts:184 | TrimEnd removes only white space and stops at the last other character |
| Text.TrimStartRemovesBlank | types/index.ts:184 | the removed front is blank |
| Text.TrimEndRemovesBlank | types/index.ts:184 | the removed back is blank |
| Text.TrimIsInnerSlice | types/index.ts:184 | `trim` leaves a contiguous slice, with blank text on either side of it |
| Text.TrimEndsAreNotWhitespace | types/index.ts:184 | the trimmed text neither starts nor ends with white space |
| Text.TrimEmptyIffBlank | types/index.ts:181-184 | something survives `trim` exactly when `/\S/` matches |
| Text.TrimEmptyIffAllWhitespace | src/app/auth/page.tsx:36-38 | `!s.trim()` holds exactly for blank text |
| Text.TrimStartOfTrimmed | types/index.ts:184 | text starting with a non-space is left alone by TrimStart |
| Text.TrimEndKeepsFront | types/index.ts:184 | TrimEnd keeps a non-space first character in front |
| Text.TrimIdempotent | types/index.ts:177 | trimming twice is trimming once |
| Text.LowerKeepsWhitespace | types/index.ts:177 | lower-casing neither creates nor removes white space |
| Text.ToLower | types/index.ts:177 | same length, each character lower-cased |
| Text.LowerCharIdempotent | types/index.ts:177 | lower-casing a lower-cased character changes nothing |
| Text.ToLowerIdempotent | types/index.ts:177 | lower-casing twice is lower-casing once |
| Text.ToLowerSlice | types/index.ts:177 | lower-casing commutes with slicing |
| Text.TrimStartLower | types/index.ts:177 | TrimStart commutes with lower-casing |
| Text.TrimEndLower | types/index.ts:177 | TrimEnd commutes with lower-casing |
| Text.TrimLowerCommute | types/index.ts:177 | `trim` commutes with `toLowerCase` |
| Text.DigitChar | constants/api-endpoints.ts:14 | the character of a digit is that digit |
| Text.NatText | constants/api-endpoints.ts:14 | the decimal text of a natural is a non-empty run of digits |
| Text.NatTextRoundTrip | constants/api-endpoints.ts:14 | a natural's digits read back as that natural |
| Text.DecimalRoundTrip | src/app/dashboard/users/new/page.tsx:216-222 | an integer's decimal text is well formed and `Number` of it gives the integer back |
| Text.DecimalTextInjective | constants/api-endpoints.ts:14 | different integers have different decimal texts |
| Text.DecimalTextHasNoSlash | constants/api-endpoints.ts:14 | decimal text never contains "/" |
| Js.Get | service/fuelStationCreateSchema.ts:33-35 | reading a property throws only on null or undefined; a present key reads its value |
| Js.Or | service/api.ts:31-33 | `a \|\| b` is a when a is truthy, else b |
| Permissions.Includes | utils/permissions.ts:15 | true iff the role is an element of the list |
| Permissions.HasPermission | utils/permissions.ts:10-16 | false without a user; with one, true iff its role is in the list |
| Permissions.EmptyListDenies | utils/permissions.ts:15 | the empty list denies everyone |
| Permissions.MoreRolesKeepPermission | utils/permissions.ts:15 | enlarging the role list never revokes a permission |
| Permissions.OnlyRoleMatters | utils/permissions.ts:15 | users with the same role, and lists with the same elements, give the same answer |
| Endpoints.ById | constants/api-endpoints.ts:12-39 | a by-id path extends its base with "/" |
| Endpoints.BaseShape | constants/api-endpoints.ts:12-39 | every base is "/" followed by a non-empty name without "/" |
| Endpoints.NameHasNoSlash | constants/api-endpoints.ts:12-39 | every resource name is non-empty and slash-free |
| Endpoints.PathsStartWithSlash | constants/api-endpoints.ts:4-40 | every base, by-id path, auth path and the health path begins with "/" |
| Endpoints.BasesPrefixFree | constants/api-endpoints.ts:12-39 | no base of one resource is a prefix of another's |
| Endpoints.DifferAt | constants/api-endpoints.ts:12-39 | two texts that differ at a shared position are not prefixes of each other |
| Endpoints.SplitAtLastSlash | constants/api-endpoints.ts:14 | "a/b" with a slash-free b determines a and b |
| Endpoints.ByIdInjective | constants/api-endpoints.ts:14 | different ids give different paths |
| Endpoints.ByIdIsNotABase | constants/api-endpoints.ts:13-14 | no by-id path equals any base |
| Endpoints.ByIdDistinctResources | constants/api-endpoints.ts:12-39 | by-id paths of different resources never collide |
| Api.BearerRoundTrip | service/api.ts:15 | the header value "Bearer token" gives the token back |
| Api.StoredToken | service/api.ts:13-14 | a token is used iff the storage holds a non-empty one |
| Api.WithAuthorization | service/api.ts:12-17 | with no token or no headers the headers are unchanged; otherwise exactly the Authorization key is added, it carries the stored token as bearer credentials, and every other header keeps its value |
| Api.RequestConfig.AttachToken | service/api.ts:11-20 | the config's headers become WithAuthorization of the old headers |
| Api.Rejection | service/api.ts:25-44 | always truthy; the response body if truthy, else the server-error message; the no-connection message when only a request exists; the unexpected-error message otherwise |
| Api.Intercept | service/api.ts:23-45 | an answer passes through unchanged, and a failure is always rejected with Rejection of the error |
| Api.NoResponseMessages | service/api.ts:35-43 | without a response the rejection's message is the connection message or the unexpected-error message |
| AuthService.MapLoginResponse | service/authService.ts:24-30 | the tokens, token type and expiry are copied under their camelCase names, and the user record is passed through unchanged |
| AuthService.MapLoginResponseBijective | service/authService.ts:24-30 | the mapping loses nothing: it and its inverse undo each other |
| AuthService.LoginUser | service/authService.ts:32-36 | one post to the login path; success iff the call succeeds and the body passes the login response schema; the result maps the parsed body; a rejection is passed on |
| AuthService.RegisterUser | service/authService.ts:38-43 | the create call comes first; if it fails nothing else is sent; if it succeeds the login uses exactly the registered e-mail and password, and its result is returned |
| Session.Cleared | contexts/AuthContext.tsx:94-95 | none of the five keys remains, and every other key keeps its value |
| Session.SavedStorage | contexts/AuthContext.tsx:56-68 | token, user id text and user JSON are written; the refresh token and expiry only when truthy, otherwise any old value is kept; no other key changes |
| Session.AuthUser | contexts/AuthContext.tsx:74-78 | the session user takes id, e-mail and role; name and last name stay absent |
| Session.RestoreOutcome | contexts/AuthContext.tsx:39-51 | no stored user (or an empty one) keeps the state; a stored user that parses and passes the session schema is signed in as the parsed user; it logs out iff the stored text does not parse or fails the schema |
| Session.SaveThenRestore | contexts/AuthContext.tsx:41-68 | restoring right after saving a user signs that same user in |
| Session.LogoutThenRestore | contexts/AuthContext.tsx:41-45 | restoring after logout keeps the signed-out state |
| Session.LoginSessionRestores | contexts/AuthContext.tsx:72-81 | the session saved by a login restores to that login's user |
| Session.AuthProvider.constructor | contexts/AuthContext.tsx:34-35 | no user, loading, storage as given |
| Session.AuthProvider.SaveSession | contexts/AuthContext.tsx:56-70 | storage becomes SavedStorage of the old storage and the in-memory user is the given one |
| Session.AuthProvider.Logout | contexts/AuthContext.tsx:94-98 | storage becomes Cleared of the old storage, the user is null, and "/auth" is pushed |
| Session.AuthProvider.RestoreSession | contexts/AuthContext.tsx:38-54 | loading ends false; the outcome decides between keeping, signing in and logging out |
| Session.AuthProvider.Login | contexts/AuthContext.tsx:72-82 | success iff the service succeeds; a failure changes neither storage nor user; success saves the session of the id/e-mail/role user |
| Session.AuthProvider.Register | contexts/AuthContext.tsx:84-92 | the same for register-then-login |
| StationService.UpdateIssuesEmptyIff | service/fuelStationCreateSchema.ts:5-20 | the update schema reports no issue iff every present field meets its check |
| StationService.CreateIssuesEmptyIff | service/fuelStationCreateSchema.ts:5-18 | the create schema reports no issue iff name and municipality have 3..255 characters, address 5..255, latitude and longitude lie in their inclusive ranges, the image is absent or a URL of at most 255, and the optional id is a positive integer |
| StationService.UpdateAcceptsSubsets | service/fuelStationCreateSchema.ts:20 | any subset of the fields of a valid create payload is a valid update |
| StationService.StricterThanSharedSchema | service/fuelStationCreateSchema.ts:6-8 | a record the shared schema accepts ("ab" as name) is rejected here |
| StationService.ZodMessages | service/fuelStationCreateSchema.ts:30 | one message per issue, in order; a null issue throws |
| StationService.ServerMessages | service/fuelStationCreateSchema.ts:37 | one entry per element: its message when truthy, else its JSON text |
| StationService.ServerBody | service/fuelStationCreateSchema.ts:35-39 | an array body gives ServerMessages; a body with a truthy message gives [message]; any other body gives [its JSON text]; nothing is thrown |
| StationService.HandleError | service/fuelStationCreateSchema.ts:27-44 | a validation error throws its messages before anything else is looked at; a truthy response body is returned as ServerBody; any other error throws [message or "Error desconocido"]; a null error is a TypeError |
| StationService.Strs | service/fuelStationCreateSchema.ts:30 | texts wrapped as JSON strings, element by element |
| StationService.ZodErrorThrowsMessages | service/fuelStationCreateSchema.ts:28-31 | a validation error throws exactly its messages, in order |
| StationService.Call | service/fuelStationCreateSchema.ts:49-55 | one call; success iff answered, with the body unchanged; a failure throws what HandleError makes of the rejection |
| StationService.Create | service/fuelStationCreateSchema.ts:48-56 | an invalid payload is never sent and throws its issue messages; a valid one is posted to the stations base |
| StationService.Update | service/fuelStationCreateSchema.ts:79-87 | the same for a patch to the station's path |
| StationService.FindAll | service/fuelStationCreateSchema.ts:59-66 | one get to the stations base, with Call's outcome: the body on success, a thrown HandleError otherwise |
| StationService.FindOne | service/fuelStationCreateSchema.ts:69-76 | one get to the station's path, with Call's outcome |
| StationService.Remove | service/fuelStationCreateSchema.ts:90-97 | one delete to the station's path, with Call's outcome |
| StationService.FailuresAlwaysThrow | service/fuelStationCreateSchema.ts:53-55 | a failed call never becomes a success |
| StationService.ArrayBodyLosesMessages | service/fuelStationCreateSchema.ts:33-43 | as written, a rejected array of server messages is reported as ["Error desconocido"] |
| StationService.HandleRejection | service/fuelStationCreateSchema.ts:27-44 | the classifier applied to what the intercepted client actually rejects with: validation errors as before, any truthy body through ServerBody |
| StationService.HandleRejectionListsMessages | service/fuelStationCreateSchema.ts:37 | with HandleRejection, an array of server messages comes out one message per element |
| Hero.NextIndex | src/components/hero.tsx:43-45 | stays in range; moves up by one, and wraps from the last slide to 0 |
| Hero.PrevIndex | src/components/hero.tsx:39-41 | stays in range; moves down by one, and wraps from 0 to the last slide |
| Hero.NextThenPrev | src/components/hero.tsx:39-45 | next and prev undo each other |
| Hero.Advance | src/components/hero.tsx:34 | any number of ticks stays in range |
| Hero.AdvanceIsModular | src/components/hero.tsx:34 | k steps from i land on (i + k) mod 4 |
| Hero.FullCycle | src/components/hero.tsx:5-26 | four steps return to the start |
| Hero.ActiveFlags | src/components/hero.tsx:57-62 | the slide at index i is active iff i is the current slide |
| Hero.CountTrueOneHot | src/components/hero.tsx:60-61 | a flag list true exactly at one in-range index has exactly one true flag |
| Hero.ExactlyOneActive | src/components/hero.tsx:57-62 | exactly one slide is active at any time |
| Hero.Carousel.constructor | src/components/hero.tsx:29 | the carousel starts at slide 0 |
| Hero.Carousel.Next | src/components/hero.tsx:43-45 | the index becomes NextIndex of the old one and stays in range |
| Hero.Carousel.Prev | src/components/hero.tsx:39-41 | the index becomes PrevIndex of the old one and stays in range |
| Hero.Carousel.Tick | src/components/hero.tsx:32-37 | a timer tick has exactly the effect of next |
| AuthPage.WithField | src/app/auth/page.tsx:24 | the changed field takes the new value, and the others keep theirs |
| AuthPage.ValidationErrors | src/app/auth/page.tsx:34-41 | an error for name iff in sign-up mode and the name is blank; for e-mail and password iff blank; only those keys, with their fixed messages; empty iff every check passes |
| AuthPage.LoginModeIgnoresName | src/app/auth/page.tsx:36 | in sign-in mode the name is never reported and does not influence the errors |
| AuthPage.AuthForm.constructor | src/app/auth/page.tsx:13-21 | sign-in mode, empty fields, no errors |
| AuthPage.AuthForm.HandleChange | src/app/auth/page.tsx:23-26 | sets only the changed field and clears only its error |
| AuthPage.AuthForm.ToggleMode | src/app/auth/page.tsx:28-32 | flips the mode, empties all three fields and drops all errors |
| AuthPage.AuthForm.Validate | src/app/auth/page.tsx:34-42 | the errors become exactly ValidationErrors, old ones discarded; the answer is true iff there are none |
| AuthPage.AuthForm.HandleSubmit | src/app/auth/page.tsx:44-50 | the form is submitted only when validation passes |
| Paging.ItemsOr | src/app/dashboard/stations/page.tsx:40 | a missing list reads as empty |
| Paging.PageCount | src/app/dashboard/stations/page.tsx:41 | the least n with 10·n ≥ total, i.e. ceil(total/10) |
| Paging.PageCountBounds | src/app/dashboard/stations/page.tsx:41 | no items give 0 pages; a positive total gives between 1 and total pages |
| Paging.PrevPage | src/app/dashboard/stations/page.tsx:205 | never below 1, and one down when above 1 |
| Paging.NextPage | src/app/dashboard/stations/page.tsx:212 | never above the page count, and one up when below it |
| Paging.StepsStayInRange | src/app/dashboard/stations/page.tsx:201-213 | while paging is shown, prev and next keep the page in [1, totalPages] |
| Paging.DisabledIffNoMove | src/app/dashboard/stations/page.tsx:206-213 | a button is disabled exactly when pressing it would not move |
| StationsDashboard.CanManage | src/app/dashboard/stations/page.tsx:30 | true iff the user's role is ADMIN or MANAGER |
| StationsDashboard.StationsPage.constructor | src/app/dashboard/stations/page.tsx:24-28 | the initial list state: empty, loading, page 1 of 1, empty search |
| StationsDashboard.StationsPage.FetchStations | src/app/dashboard/stations/page.tsx:32-48 | one query of 10 per page; success takes the stations (or none) and ceil(total/10); failure leaves an empty list; loading ends false |
| StationsDashboard.StationsPage.LoadCurrentPage | src/app/dashboard/stations/page.tsx:50-52 | the `[currentPage, search]` effect: one query of 10 for the current page with the current text; the list and page count it loads, and loading ends false |
| StationsDashboard.StationsPage.SetSearch | src/app/dashboard/stations/page.tsx:99 | a changed text is stored and the effect fetches the same page with it, leaving that query's list and page count with loading false; the same text sends nothing and changes nothing |
| StationsDashboard.StationsPage.HandleSearch | src/app/dashboard/stations/page.tsx:54-58 | the page is reset to 1 and page 1 is fetched with the search text, leaving page 1's list and page count with loading false; when the page was not 1, the effect fetches page 1 a second time |
| StationsDashboard.StationsPage.HandleDelete | src/app/dashboard/stations/page.tsx:60-72 | declining neither deletes nor refetches; a successful delete refetches the current page and leaves its list and page count; a failed one changes neither |
| StationsDashboard.StationsPage.ClickPrev | src/app/dashboard/stations/page.tsx:205 | the page clamps at 1 and stays in range; an enabled button fetches the new page with the search text and leaves that page's list and page count; a disabled one sends nothing |
| StationsDashboard.StationsPage.ClickNext | src/app/dashboard/stations/page.tsx:212 | the page clamps at totalPages and stays in range; an enabled button fetches the new page with the search text and leaves that page's list and page count; a disabled one sends nothing |
| UsersDashboard.IsAdmin | src/app/dashboard/users/page.tsx:36 | true iff the signed-in role is ADMIN |
| UsersDashboard.DeleteOffered | src/app/dashboard/users/page.tsx:181 | the delete action is offered on every row except the signed-in user's own |
| UsersDashboard.RoleBadge | src/app/dashboard/users/page.tsx:157-161 | red iff ADMIN, blue iff MANAGER, gray for every other role |
| UsersDashboard.UsersPage.constructor | src/app/dashboard/users/page.tsx:31-34 | empty list, loading, page 1 of 1 |
| UsersDashboard.UsersPage.Rendered | src/app/dashboard/users/page.tsx:81-83 | a non-admin sees nothing |
| UsersDashboard.UsersPage.CheckAccess | src/app/dashboard/users/page.tsx:38-42 | a signed-in non-admin is sent to /dashboard; nobody else is |
| UsersDashboard.UsersPage.FetchUsers | src/app/dashboard/users/page.tsx:44-59 | one query of 10 per page with no search key; success takes the users (or none) and ceil(total/10); failure leaves an empty list; loading ends false |
| UsersDashboard.UsersPage.LoadCurrentPage | src/app/dashboard/users/page.tsx:61-65 | for an admin, the current page is fetched and its users and page count are loaded, with loading false; for anyone else nothing is sent or changed |
| UsersDashboard.UsersPage.HandleDelete | src/app/dashboard/users/page.tsx:67-79 | declining neither deletes nor refetches; a successful delete refetches the current page and leaves its users and page count; a failed one changes neither |
| UsersDashboard.UsersPage.ClickPrev | src/app/dashboard/users/page.tsx:203 | the page clamps at 1 and stays in range; for an admin an enabled button fetches the new page through the effect and leaves its users and page count; otherwise nothing is sent |
| UsersDashboard.UsersPage.ClickNext | src/app/dashboard/users/page.tsx:210 | the page clamps at totalPages and stays in range; for an admin an enabled button fetches the new page through the effect and leaves its users and page count; otherwise nothing is sent |
| NewUserPage.FormIssues | src/app/dashboard/users/new/page.tsx:14-21 | an empty confirmation is reported; a mismatch is the last issue and sits on confirmPassword; no issue iff the user fields pass and the confirmation is non-empty and equal to the password |
| NewUserPage.PayloadDropsOnlyConfirmation | src/app/dashboard/users/new/page.tsx:86-87 | the payload with the confirmation put back is the form: only the confirmation is removed (this holds by the form's construction as user data plus confirmation) |
| NewUserPage.StationChoice | src/app/dashboard/users/new/page.tsx:216 | "" maps to no station, and any other value to a number |
| NewUserPage.StationChoiceRoundTrip | src/app/dashboard/users/new/page.tsx:216-222 | an option's value text gives its station id back |
| NewUserPage.IsAdmin | src/app/dashboard/users/new/page.tsx:46 | true iff the signed-in role is ADMIN |
| NewUserPage.NewUserForm.constructor | src/app/dashboard/users/new/page.tsx:38 | not loading, nothing sent |
| NewUserPage.NewUserForm.Rendered | src/app/dashboard/users/new/page.tsx:97-99 | non-admins see nothing |
| NewUserPage.NewUserForm.CheckAccess | src/app/dashboard/users/new/page.tsx:48-52 | a signed-in non-admin is sent to /dashboard |
| NewUserPage.NewUserForm.OnSubmit | src/app/dashboard/users/new/page.tsx:83-95 | the payload is sent; success navigates to the user list; failure shows the server's message or "Error al crear el usuario"; loading ends false |
| NewUserPage.NewUserForm.Submit | src/app/dashboard/users/new/page.tsx:14-21 | the form's issues are shown and nothing is sent unless there are none; anything sent had matching passwords |
| Js.ResponseMessage | src/app/dashboard/users/new/page.tsx:91 | the error toast is the server's truthy message, else the fallback text; a null error throws |
| FuelTypesPage.EditValues | src/app/dashboard/fuel-types/page.tsx:79-82 | the edit form starts with the fuel type's name, and its description or "" |
| FuelTypesPage.SubmitCall | src/app/dashboard/fuel-types/page.tsx:60-66 | an update of the edited id when editing, a create otherwise |
| FuelTypesPage.FuelTypesManager.constructor | src/app/dashboard/fuel-types/page.tsx:18-21 | closed form, nothing edited, empty defaults |
| FuelTypesPage.FuelTypesManager.IsAdmin | src/app/dashboard/fuel-types/page.tsx:23 | true iff the signed-in role is ADMIN |
| FuelTypesPage.FuelTypesManager.Rendered | src/app/dashboard/fuel-types/page.tsx:106-108 | non-admins see nothing |
| FuelTypesPage.FuelTypesManager.CheckAccess | src/app/dashboard/fuel-types/page.tsx:25-29 | a signed-in non-admin is sent to /dashboard |
| FuelTypesPage.FuelTypesManager.FetchFuelTypes | src/app/dashboard/fuel-types/page.tsx:39-50 | one list call; the list, or empty when missing or failed; loading ends false |
| FuelTypesPage.FuelTypesManager.LoadIfAdmin | src/app/dashboard/fuel-types/page.tsx:52-56 | for an admin, one list call whose `data` (or an empty list when missing or failed) becomes the list, with loading false; for anyone else nothing is sent or changed |
| FuelTypesPage.FuelTypesManager.OpenNew | src/app/dashboard/fuel-types/page.tsx:118-120 | shown only when the form is closed; opens it with nothing being edited |
| FuelTypesPage.FuelTypesManager.HandleEdit | src/app/dashboard/fuel-types/page.tsx:77-84 | the form opens on that fuel type, pre-filled with EditValues |
| FuelTypesPage.FuelTypesManager.HandleCancel | src/app/dashboard/fuel-types/page.tsx:100-104 | always a closed form with no edit target, values back to the defaults |
| FuelTypesPage.FuelTypesManager.HandleSubmit | src/app/dashboard/fuel-types/page.tsx:58-75 | update when editing, create otherwise; success closes the form, forgets the edit target and refetches, loading the new list; failure leaves the list, form, target and values as they were and shows the server's message or the fallback; an edit target always implies an open form |
| FuelTypesPage.FuelTypesManager.HandleDelete | src/app/dashboard/fuel-types/page.tsx:86-98 | declining does nothing; a successful delete refetches and loads the new list; a failed one keeps the list |
| ProfilePage.ProfileIsUpdateWithoutPassword | src/app/profile/page.tsx:15 | a profile is valid iff it is a valid user update with no password; every update without a password is a profile; the empty profile is valid |
| ProfilePage.ProfileValue | src/app/profile/page.tsx:80-91 | the body has only profile keys, never a password |
| ProfilePage.ProfileValueFields | src/app/profile/page.tsx:80-91 | a name or e-mail is sent iff present, with its value |
| ProfilePage.ProfileDefaults | src/app/profile/page.tsx:68-78 | the form is reset to the session's name, last name and e-mail, and nothing else |
| ProfilePage.DefaultsAreValid | src/app/profile/page.tsx:68-78 | those defaults pass the profile schema when the session's fields are within bounds |
| ProfilePage.PasswordIssues | src/app/profile/page.tsx:18-29 | no issue iff a current password is given and non-empty, the new one has at least 6 characters and the confirmation equals it; a missing current password gives "Required" and stops the refinement; each other message appears iff its check fails; a mismatch, reported only when the current password is given, is the last issue, on confirmPassword |
| ProfilePage.PageForm | src/app/profile/page.tsx:63-65 | the page's password form never holds a current password, and carries the two visible fields unchanged |
| ProfilePage.PageFormNeverPasses | src/app/profile/page.tsx:213-236 | as written, the page's password form always reports "Required" for the current password and never the mismatch, so it never passes; matching "secret1" passwords give exactly that one issue |
| ProfilePage.RestoredFormPasses | src/app/profile/page.tsx:18-29 | with the current-password input restored, a non-empty current password and a matching new password of 6 to 255 characters pass, and the body is a valid update |
| ProfilePage.PasswordBody | src/app/profile/page.tsx:96-100 | the body holds only the new password |
| ProfilePage.PasswordBodyIsValidUpdate | src/app/profile/page.tsx:93-100 | an accepted password change is a valid user update |
| ProfilePage.ProfileManager.constructor | src/app/profile/page.tsx:56-57 | neither form is loading and nothing has been sent |
| ProfilePage.ProfileManager.LoadProfile | src/app/profile/page.tsx:68-78 | once the user is known the form holds ProfileDefaults |
| ProfilePage.ProfileManager.HandleUpdate | src/app/profile/page.tsx:36-52 | one call; success toasts and runs the form's reset; failure toasts `error.response?.data?.message`, else "Ocurrió un error" (as written; see ServerMessageNeverShown); the form's loading flag ends false |
| ProfilePage.ServerMessageNeverShown | src/app/profile/page.tsx:48 | as written, for every rejection of the intercepted client whose body has no `response` key, the toast is "Ocurrió un error" |
| ProfilePage.DuplicateEmailMessageLost | src/app/profile/page.tsx:48 | as written, a rejected update with body `{message: "Email ya registrado"}` toasts "Ocurrió un error" |
| ProfilePage.RejectionMessage | src/app/profile/page.tsx:48 | the corrected toast: the rejection's own truthy message, else the fallback; always truthy |
| ProfilePage.RejectionMessageShowsServerMessage | src/app/profile/page.tsx:48 | with the corrected toast, a server body `{message}` shows that message, and a call without a response shows the client's connection or unexpected-error text |
| ProfilePage.ProfileManager.SubmitProfile | src/app/profile/page.tsx:80-91 | nothing without a user or with an invalid profile; otherwise the profile is sent as an update of the signed-in user's id |
| ProfilePage.ProfileManager.SubmitPassword | src/app/profile/page.tsx:93-105 | for a form with the current password given (the input restored): the issues are shown; nothing is sent, toasted or reset unless they are empty and a user is signed in; the body is the new password only |
| ProfilePage.ProfileManager.SubmitPageForm | src/app/profile/page.tsx:213-236 | the page as written: the issues include "Required" and nothing is sent, toasted or reset, whatever the two visible fields hold |
| PublicStations.FuelIcon | src/app/stations/page.tsx:133-151 | gasoline, diesel, gas or shop iff the lower-cased name is one of the nine listed, and the default icon otherwise |
| PublicStations.IconIgnoresCase | src/app/stations/page.tsx:134 | the icon depends only on the lower-cased name |
| PublicStations.CategoriesDisjoint | src/app/stations/page.tsx:135-147 | no name belongs to two categories |
| PublicStations.FixedFuels | src/app/stations/page.tsx:171-175 | three fuels in the fixed order, each with its icon |
| PublicStations.FixedFuelIcons | src/app/stations/page.tsx:172-174 | the three fixed fuels show the gasoline, diesel and gas icons |
| PublicStations.MapStation | src/app/stations/page.tsx:164-175 | id, name, address and coordinates are copied from the response record unchanged; a null record throws |
| PublicStations.MapStations | src/app/stations/page.tsx:164 | every record mapped in order, or a throw iff some record is null |
| PublicStations.StationsFrom | src/app/stations/page.tsx:162-178 | a list comes only from an array in `data`, and an array `data` gives exactly MapStations of its items |
| PublicStations.StationsView.constructor | src/app/stations/page.tsx:154-156 | empty list, loading, nothing selected |
| PublicStations.StationsView.ModalShown | src/app/stations/page.tsx:317 | the modal shows only for a selected station with both coordinates truthy |
| PublicStations.StationsView.Load | src/app/stations/page.tsx:158-189 | a mapped response replaces the list, a failure keeps it; loading ends false |
| PublicStations.StationsView.OpenMap | src/app/stations/page.tsx:302-304 | offered only for a station with both coordinates truthy; selecting it shows the modal |
| PublicStations.StationsView.CloseMap | src/app/stations/page.tsx:329 | the modal closes |

## Left out

- I/O is not modelled: the axios transport, `localStorage` as a global, toasts as rendered UI, `window.location.reload`, `confirm` dialogs and `console` output.
  - The backend is a function parameter.
  - Storage is a map field.
  - Navigations, reloads and confirmations are recorded fields or boolean parameters.
  - Only the toasts whose text depends on the error are recorded: the error toasts of the new user form, the fuel-type form's submit and the profile page's updates, and the profile page's success toasts. The fixed-text toasts (the dashboards' load and delete messages, the fuel-types page's load, save and delete messages, and the new user page's success message) are not recorded.
- Asynchrony and React scheduling are left out:
  - un-awaited calls are treated as finishing in order;
  - effects run when their method is called; on both dashboards, the handlers that change the page (or the search text) call the fetch effect themselves;
  - `setInterval` timing is only its tick.
- Markup, styling and the static pages are not part of this model: `dashboard/page.tsx`, `pag_admin`, `about`, `stations/new`, the station detail and edit pages, and the navbar, footer and services components.
- The one-call wrapper services under `service/` (roles, users, fuel types, stations, register) are not modelled beyond the endpoint paths they use.
- `registerResponseSchema` is not part of this model; nothing in the core reads it.
- The `@/lib/auth`, `@/lib/api` and `@/lib/schemas` modules are not part of this model.
  - `hasPermission` is taken to behave as `utils/permissions.ts`.
  - `UserSchema` and `FuelTypeSchema` issues are parameters (`userIssues`).
  - The list endpoints return abstract answers.
- The new user page's station list fetch (its lines 68-81) only feeds the select's options and is not modelled.
- E-mail, URL and ISO date-time formats, JSON text, and number-to-text conversion of stored and rendered numbers are parameters. The exception is the integer text of `byId` paths, which is the concrete `Text.DecimalText`.
- Endpoints.ById: takes an integer id only. The source's `byId` also accepts a string id (`byId("5")` is the same path as `byId(5)`) and any number; string ids and non-integer numbers are not modelled, because every caller in the model passes an integer id.
- `z.coerce.number()` is not modelled: coordinates and quantities are already numbers.
- NaN and the infinities are not modelled, because numbers are `real`.
- Schema lengths count characters; JavaScript counts UTF-16 code units, so characters outside the Basic Multilingual Plane count once here and twice in the source.
- `toLowerCase` is modelled for ASCII and Latin-1 capitals only. Full Unicode case mapping is outside the model.
- White space for `trim` and `\S` is a fixed set of characters.
- AuthPage.ValidationErrors: `!s.trim()` is stated as "every character is white space" (`Text.Blank`). The lemma `Text.TrimEmptyIffAllWhitespace` proves the two agree.
- Invalid `Date` objects of the station service's schema are represented as present dates. The `created_at`/`updated_at` checks accept any present date.
- Text.DecimalText: integers of magnitude 10^21 or more, which JavaScript's `String` writes in exponent form, and integers beyond 2^53, which a double cannot hold exactly, are not modelled; the `byId` paths of such ids differ from the source's.
- PublicStations.StationsFrom: a `data` value that is not an array counts as a throw, even for an object that happens to carry a callable `map`.
- PublicStations: the map's embed URL is not modelled; it needs number-to-text of arbitrary values.
- Session.SaveThenRestore: stated for codecs that read back what they wrote (`Session.ReadsBack`), since JSON text is a parameter.
- ProfilePage.ProfileManager.HandleUpdate: the password form's reset is modelled as no current password and two empty visible fields; the library's reset to no default values is not distinguished from that.
- FuelTypesPage.FuelTypesManager.HandleSubmit: form validation by `FuelTypeSchema` happens before the handler and is not modelled; the handler receives validated data.

## Findings

| source | as written | input that shows it | evidently intended | confidence | as-written member | corrected member |
|---|---|---|---|---|---|---|
| service/fuelStationCreateSchema.ts:33-43 | `handleError` looks for `error.response.data`, but the service uses the intercepted client, which already rejects with the response body itself. The server branch is therefore never taken, and the body falls through to `[error.message \|\| "Error desconocido"]`. | a failed call whose response body is `[{message: "Nombre duplicado"}]` | report the server's messages, one per element (`["Nombre duplicado"]`) | not executed | StationService.ArrayBodyLosesMessages | StationService.HandleRejectionListsMessages |
| src/app/profile/page.tsx:48 | `handleUpdate` toasts `error.response?.data?.message \|\| "Ocurrió un error"`, but `usersAPI.update` (service/usersService.ts) uses the intercepted client, which rejects with the response body itself or a `{message}` object. That rejection has no `response` key, so the fallback is always shown. | a rejected profile update whose response body is `{message: "Email ya registrado"}` | show the server's message (`"Email ya registrado"`) | not executed | ProfilePage.ServerMessageNeverShown | ProfilePage.RejectionMessageShowsServerMessage |
| src/app/profile/page.tsx:216-222 | The current-password input is commented out, and the password form has no default values, but `passwordSchema` still requires `currentPassword` as a string. The resolver reports it "Required", which aborts the object before the refinement, so `onPasswordSubmit` is never called. | new password "secret1", confirmation "secret1": nothing is sent, and the issues are [currentPassword "Required"] | the password change is sent (`{password: "secret1"}`), with the current-password input restored | not executed | ProfilePage.PageFormNeverPasses | ProfilePage.RestoredFormPasses |

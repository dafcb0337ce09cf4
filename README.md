# NotaPro-Front, modelled in Dafny

NotaPro-Front is the web front end of an invoice ("nota fiscal") manager. This
project models what its pages and contexts decide, and proves properties of that model:

- the route guard (`middleware.ts`);
- the HTTP client's interceptors and the logout service (`lib/api.ts`);
- the authentication context: session storage in cookies and `localStorage`,
  login, logout, rehydration on mount (`contexts/auth-context.tsx`);
- the statistics context and the footer's statistics panel;
- the invoice issue page and the invoice form: field validation, item lists,
  error clearing, cents-based currency entry, save requests;
- the company form's schema;
- the invoice and company list pages with their delete dialogs;
- the user administration page: search, pagination, the create and edit
  schemas, the delete, create and edit flows.

The modelling is as follows:

- Pure rules are Dafny functions over datatypes, with lemmas about them.
- What a component keeps in React state is a class whose methods update its
  fields. Each method's `ensures` ties the new state to those functions.
- A value that comes from outside the browser code is a parameter:
  - a backend reply is a `Reply<T>`: `Ok(data)`, or `Failed(error)` with the
    HTTP status of the rejected request (none for a network failure);
  - `JSON.parse`/`JSON.stringify` are functions, with a round-trip predicate
    assumed where the code relies on it;
  - zod's `.email()` check is a predicate `isEmail`.
- The handlers that POST, PUT or DELETE on the invoice form and the user
  administration page return the request they send. The GET fetches and the
  login POST take only the backend's reply.
- Cookies and `localStorage` are two `map<string, string>` fields of a
  `Browser` object, beside the location the API client's 401 redirect sets.
  The API client and the authentication context share it; the page classes
  do not hold it.
- Money is a whole number of cents.

Modules: Wrappers, Text (the string functions the sources use), Records (id
lists), Rules (one-message checks), RouteGuard, Api, Auth, Statistics, Footer,
InvoiceIssue, InvoiceForm, CompanyForm, DeleteList, InvoiceList, CompanyList,
UserAdmin.

Behaviour of the code worth noting:

- **Admin pages.** The guard checks only that a token cookie is present, not the user's role
  (`RouteGuard.AdminPagesNeedOnlyAToken`).
- **Session source.** On mount, `checkAuth` needs the token cookie but reads the user only from
  `localStorage`, never from the `user` cookie. A token cookie without a stored user is cleared
  (`Auth.CookieOnlySessionIsCleared`, `Auth.RehydrateIgnoresUserCookie`).
- **Stored `null`.** A stored user that parses to JSON `null` leaves the stores as they are
  (`Auth.NullRecordKeepsStores`).
- **Past the last page.** Deleting the last user of the last page does not move the users page
  back. The page can then show "11-10 de 10" (`UserAdmin.RangeLabel`).
- **Create password.** The create dialog's default password `""` is refused by the create schema
  (`UserAdmin.EditAcceptsMore`).

## Model

| member | source | states |
|---|---|---|
| RouteGuard.Middleware | middleware.ts:6-28 | a public route passes; otherwise no `auth-token` cookie redirects to `/signin` with the path as callback, and a token passes |
| RouteGuard.SomeRouteMatchesIff | middleware.ts:7-9 | the route test holds exactly when some listed route equals the path or is followed by `/` in it |
| RouteGuard.PublicRouteIff | middleware.ts:4-9 | the public paths are exactly `/signin`, `/signup`, `/`, `/forgot-password` and every path continuing one of them with `/` |
| RouteGuard.PublicRouteExamples | middleware.ts:4-9 | `/signinx` and `/empresas` are guarded, `/signin/reset` is public, and so is every path starting with `//` (it starts with `/` + `/`) |
| RouteGuard.OnlyTokenCookieMatters | middleware.ts:17 | the verdict depends on the `auth-token` cookie alone |
| RouteGuard.AdminPagesNeedOnlyAToken | middleware.ts:26-27 | any token opens `/admin/...`; the guard does not check the role |
| RouteGuard.NoRedirectLoop | middleware.ts:17-24 | the redirect target is itself public, so following it never redirects again |
| RouteGuard.Guard | middleware.ts:31-35 | paths excluded by the matcher pass untouched; the others get the middleware's verdict |
| RouteGuard.MatcherExemptions | middleware.ts:31-35 | the exclusion is a plain prefix test: `/apiary` and `/api/users` are exempt like `/_next/...`, and `.` in `favicon.ico` matches any character |
| RouteGuard.CompanyPagesGuarded | middleware.ts:17-24 | without a token, `/empresas` redirects to sign-in with `/empresas` as callback |
| RouteGuard.EmpresasMatched | middleware.ts:31-35 | the matcher selects `/empresas`, so the middleware runs on it |
| Api.RemoveSession | lib/api.ts:45-56 | logout removes both session cookies and both storage items and keeps every other key |
| Api.RemoveOnUnauthorized | lib/api.ts:24-31 | a 401 removes the token cookie and both storage items, but keeps the `user` cookie |
| Api.RequestToken | lib/api.ts:14 | the token sent is the cookie's when non-empty, else the stored one; it is empty exactly when both are |
| Api.Authorized | lib/api.ts:15-17 | with a token, the `Authorization` header becomes `Bearer <token>` and no other header changes; without one, the headers stay as given |
| Api.NoBearerAfterUnauthorized | lib/api.ts:14-31 | after a 401 no further request carries a bearer header |
| Api.NoBearerAfterLogout | lib/api.ts:14-17 | after logout no further request carries a bearer header |
| Api.Browser.InterceptRequest | lib/api.ts:13-19 | the request's headers become the authorized headers for the current stores |
| Api.Browser.InterceptResponse | lib/api.ts:22 | a successful response passes through unchanged |
| Api.Browser.InterceptError | lib/api.ts:21-35 | the error is always rejected as is; a 401 first applies the 401 clean-up and goes to `/signin`; any other error changes nothing |
| Api.Browser.Logout | lib/api.ts:45-56 | logout succeeds and leaves the stores without the session |
| Auth.Cleared | contexts/auth-context.tsx:30-38 | clearing leaves no session and no user, removes exactly the four session keys, and keeps loading flag and location |
| Auth.Rehydrated | contexts/auth-context.tsx:41-61 | rehydration ends loading; a parsed stored user and token become the user; a parse error clears everything |
| Auth.LoggedIn | contexts/auth-context.tsx:66-108 | login always ends with loading off; a rejected login with status 401 also goes through the API client's clean-up and to `/signin` |
| Auth.LoggedOut | contexts/auth-context.tsx:110-115 | logout leaves no session and no user and goes to `/signin` |
| Auth.LoginPersistsSession | contexts/auth-context.tsx:74-100 | a login reply with a token stores token and user in cookies and storage, keeps every other cookie and item, sets the user and goes to `/` |
| Auth.LoginWithoutToken | contexts/auth-context.tsx:74-100 | a reply without a token leaves no session and no user after the initial clear, and does not navigate |
| Auth.FailedLogin | contexts/auth-context.tsx:66-107 | a failed login leaves no session and no user and loading off; a 401 ends on `/signin`, any other failure leaves exactly the cleared state |
| Auth.LoginThenRehydrate | contexts/auth-context.tsx:41-98 | after a login with a token, a reload restores the same user, given that parsing undoes stringifying |
| Auth.RehydrateIdempotent | contexts/auth-context.tsx:41-61 | rehydrating twice is rehydrating once |
| Auth.RehydrateIgnoresUserCookie | contexts/auth-context.tsx:46-48 | the `user` cookie plays no part in rehydration |
| Auth.CookieOnlySessionIsCleared | contexts/auth-context.tsx:42-58 | a token cookie with no stored user is wiped on mount |
| Auth.NullRecordKeepsStores | contexts/auth-context.tsx:46-48 | a stored user that parses to `null` sets no user but removes nothing |
| Auth.UnauthorizedThenRehydrate | contexts/auth-context.tsx:41-61 | after a 401 clean-up, a reload finds no session |
| Auth.LogoutThenGuardRedirects | contexts/auth-context.tsx:110-115 | after logout every guarded path redirects to sign-in |
| Auth.LoginThenBearer | contexts/auth-context.tsx:74-98 | after a login with a token, requests carry `Bearer <token>` |
| Auth.AuthProvider.ClearAuthData | contexts/auth-context.tsx:30-38 | the provider's state becomes the cleared state |
| Auth.AuthProvider.CheckAuth | contexts/auth-context.tsx:41-61 | the provider's state becomes the rehydrated state |
| Auth.AuthProvider.Login | contexts/auth-context.tsx:66-108 | the provider's state becomes the logged-in state, and the call throws exactly when the reply failed |
| Auth.AuthProvider.Logout | contexts/auth-context.tsx:110-115 | the provider's state becomes the logged-out state |
| Statistics.Settled | contexts/StatisticsContext.tsx:31-43 | a refresh ends loading, takes the data and clears the error on success, and on failure keeps the old data and sets the error |
| Statistics.AfterRefreshes | contexts/StatisticsContext.tsx:31-43 | after any run of refreshes the data is that of the last success, and the error is set exactly when the last one failed |
| Statistics.StatisticsProvider.BeginRefresh | contexts/StatisticsContext.tsx:33 | only the loading flag turns on |
| Statistics.StatisticsProvider.FinishRefresh | contexts/StatisticsContext.tsx:34-41 | the state becomes the settled state |
| Statistics.StatisticsProvider.Refresh | contexts/StatisticsContext.tsx:31-43 | a whole refresh gives the settled state |
| Statistics.Mount | contexts/StatisticsContext.tsx:27-47 | mounting gives the settled state of the initial state |
| Footer.PanelAfterFetches | components/layout/footer.tsx:31-58 | the panel shows exactly when the last fetch succeeded; after a failure the error line shows |
| Footer.ExactlyOnePart | components/layout/footer.tsx:58-93 | only the loading line shows before the first answer; after any fetches at least one part shows, the panel never beside the others, and never loading beside the error |
| Footer.RecoveryAfterFailure | components/layout/footer.tsx:33-38 | a failure hides the panel and a later success brings it back |
| Footer.FooterStats.FetchStats | components/layout/footer.tsx:31-42 | the state becomes the settled state, with loading off |
| InvoiceIssue.IsAmountIff | app/notas-fiscais/emitir/page.tsx:169 | an amount is digits, then optionally a comma and one or two digits |
| InvoiceIssue.AmountAccepted | app/notas-fiscais/emitir/page.tsx:169 | `1234,56`, `12,3` and `7` are amounts |
| InvoiceIssue.AmountRefused | app/notas-fiscais/emitir/page.tsx:169 | `1234,`, `,5`, `1.5`, `1,234`, `1.234,56` and the empty text are refused |
| InvoiceIssue.NotAmountAfterOneDigit | app/notas-fiscais/emitir/page.tsx:169 | a digit followed by a non-digit that does not start a comma and one or two digits is refused |
| InvoiceIssue.AmountCheck | app/notas-fiscais/emitir/page.tsx:166-171 | blank after trimming → required message; otherwise the format message exactly when the trimmed text is not an amount |
| InvoiceIssue.CountCheck | app/notas-fiscais/emitir/page.tsx:195-201 | blank → required message; otherwise the format message exactly when the trimmed text is not all digits |
| InvoiceIssue.FieldErrorsOf | app/notas-fiscais/emitir/page.tsx:146-171 | each header field has its message exactly when its rule fails |
| InvoiceIssue.ItemErrorsOf | app/notas-fiscais/emitir/page.tsx:184-210 | each item field has its message exactly when its rule fails |
| InvoiceIssue.CheckFields | app/notas-fiscais/emitir/page.tsx:146-171 | the loop-free check returns the header errors, and it is valid exactly when there are none |
| InvoiceIssue.CheckItem | app/notas-fiscais/emitir/page.tsx:184-214 | the check of one item returns its errors and whether it failed |
| InvoiceIssue.ItemErrorListAt | app/notas-fiscais/emitir/page.tsx:181-217 | entry `i` of the item error list is the errors of item `i` |
| InvoiceIssue.AnyItemErrorIff | app/notas-fiscais/emitir/page.tsx:212-214 | the item flag is set exactly when some item has an error |
| InvoiceIssue.ErrorsOfIff | app/notas-fiscais/emitir/page.tsx:143-221 | the form has no errors exactly when every header rule holds and no item has an error |
| InvoiceIssue.Validate | app/notas-fiscais/emitir/page.tsx:143-221 | the loop over the items returns exactly the form's errors, and it is valid exactly when they are empty |
| InvoiceIssue.UntouchedFormRefused | app/notas-fiscais/emitir/page.tsx:65-72 | the untouched form is refused: number, company, value and all three fields of its one blank item need filling, and the date does exactly when today's date is empty |
| InvoiceIssue.SpliceOut | app/notas-fiscais/emitir/page.tsx:128-129 | removing entry `i` keeps the entries before it and moves those after it down by one; an index out of range removes nothing |
| InvoiceIssue.ChangeIsLocal | app/notas-fiscais/emitir/page.tsx:77-171 | changing one field keeps the items and every other field's verdict and message, so clearing only its own message hides nothing |
| InvoiceIssue.ItemChangeIsLocal | app/notas-fiscais/emitir/page.tsx:96-117 | changing one item field keeps the verdict and message of the item's other fields |
| InvoiceIssue.ClearItemError | app/notas-fiscais/emitir/page.tsx:107-116 | editing an item clears that field's message of that item only |
| InvoiceIssue.SpliceOutKeepsAlignment | app/notas-fiscais/emitir/page.tsx:126-141 | removing an item and its error entry keeps errors aligned with items |
| InvoiceIssue.IssuePage.HandleChange | app/notas-fiscais/emitir/page.tsx:77-94 | the field takes the new text and only its own message is removed |
| InvoiceIssue.IssuePage.HandleItemChange | app/notas-fiscais/emitir/page.tsx:96-117 | only that field of that item changes, and only its message in that item's entry goes |
| InvoiceIssue.IssuePage.AddItem | app/notas-fiscais/emitir/page.tsx:119-124 | a blank item is appended |
| InvoiceIssue.IssuePage.RemoveItem | app/notas-fiscais/emitir/page.tsx:126-141 | with more than one item, the item and its errors go; the last item is never removed |
| InvoiceIssue.IssuePage.ValidateForm | app/notas-fiscais/emitir/page.tsx:143-221 | the page's errors become the form's errors, and it reports validity exactly when they are empty |
| InvoiceIssue.IssuePage.HandleSubmit | app/notas-fiscais/emitir/page.tsx:223-242 | a valid form starts submitting with no errors; otherwise the errors plus the general message show |
| InvoiceIssue.IssuePage.SubmitDelayElapsed | app/notas-fiscais/emitir/page.tsx:230-234 | after the delay, submitting stops and the page goes to the list |
| InvoiceForm.UntouchedFormRefused | app/notas-fiscais/form.tsx:63-72 | the untouched form is refused for its description, company, amount and boleto number; the dates fail exactly when today's date is empty, and the payment type never |
| InvoiceForm.FieldErrorsOf | app/notas-fiscais/form.tsx:148-189 | each field has its message exactly when its rule fails; the boleto number is needed only for boleto payments |
| InvoiceForm.ValidIff | app/notas-fiscais/form.tsx:148-189 | the form is valid exactly when every rule holds |
| InvoiceForm.Validate | app/notas-fiscais/form.tsx:148-189 | applying the seven rules one after another in the order of the source yields exactly the field errors, and validity exactly when there are none |
| InvoiceForm.RulesInOrder | app/notas-fiscais/form.tsx:148-189 | the rules run one at a time in the order of the source record exactly the field errors of the form |
| InvoiceForm.CentsIgnoresNonDigit | app/notas-fiscais/form.tsx:124-126 | a typed non-digit does not change the amount |
| InvoiceForm.CentsTypeDigit | app/notas-fiscais/form.tsx:124-126 | typing digit `d` after the text turns `c` cents into `10 c + d` |
| InvoiceForm.CentsDeleteDigit | app/notas-fiscais/form.tsx:124-126 | deleting the last digit divides the cents by ten |
| InvoiceForm.Display | app/notas-fiscais/form.tsx:230-236 | the shown amount ends in a comma and two decimals |
| InvoiceForm.DisplayReadsBack | app/notas-fiscais/form.tsx:121-236 | reading the shown amount back gives the same cents |
| InvoiceForm.ClearError | app/notas-fiscais/form.tsx:116-146 | an edit clears exactly its own field's message and keeps the general one |
| InvoiceForm.EditIsLocal | app/notas-fiscais/form.tsx:98-189 | an edit changes no other field's verdict, except that the payment type also decides the boleto number's |
| InvoiceForm.TypedValorRule | app/notas-fiscais/form.tsx:121-174 | the amount rule fails after typing exactly when the typed digits are worth zero |
| InvoiceForm.PutPathIdentifies | app/notas-fiscais/form.tsx:205-206 | a PUT path lies under `/notas/`, is never the collection path, and distinct ids give distinct paths |
| InvoiceForm.FormPage.LoadCompanies | app/notas-fiscais/form.tsx:77-90 | a reply fills the companies, a failure keeps the list as it was, and loading ends either way |
| InvoiceForm.FormPage.SyncProp | app/notas-fiscais/form.tsx:92-96 | a given invoice replaces the form data |
| InvoiceForm.FormPage.HandleEdit | app/notas-fiscais/form.tsx:98-146 | the form takes the edit and the errors lose that field's message |
| InvoiceForm.FormPage.ValidateForm | app/notas-fiscais/form.tsx:148-189 | the errors become the field errors with no general message |
| InvoiceForm.FormPage.BeginSubmit | app/notas-fiscais/form.tsx:191-209 | an invalid form sends nothing and shows the general message; a valid one starts submitting and sends the save request |
| InvoiceForm.FormPage.FinishSubmit | app/notas-fiscais/form.tsx:210-219 | success goes to the list; failure shows the save message; submitting ends either way |
| InvoiceForm.FormPage.HandleSubmit | app/notas-fiscais/form.tsx:191-220 | the save request is sent exactly when the form is valid; then success goes to the list with no errors, and failure shows only the save message and stays on the page; an invalid form shows exactly its field errors and the general message, without starting to submit |
| CompanyForm.MaskLengths | app/empresas/form.tsx:29-39 | a CNPJ has 18 characters and a phone 15, with the separators in place; the empty text matches neither |
| CompanyForm.MaskExamples | app/empresas/form.tsx:29-39 | `12.345.678/0001-90` and `(11) 91234-5678` match; unformatted or short ones do not |
| CompanyForm.EmailPatternIff | app/empresas/form.tsx:45 | the e-mail pattern holds exactly for text without spaces, with one `@`, and a `.` strictly inside the domain |
| CompanyForm.EmailAccepted | app/empresas/form.tsx:45 | `contato@empresa.com` has the e-mail shape |
| CompanyForm.EmailRefused | app/empresas/form.tsx:45 | a missing domain dot, an empty local part, two `@`, a space or an empty label each fail |
| CompanyForm.CnpjCheck | app/empresas/form.tsx:26-32 | the CNPJ passes exactly when it matches the mask; the empty text gets the required message, anything else the format message |
| CompanyForm.ErrorsOf | app/empresas/form.tsx:24-48 | each field has its message exactly when its rule fails |
| CompanyForm.BannerIff | app/empresas/form.tsx:86 | the banner shows exactly when some rule fails |
| CompanyForm.BlankTextPasses | app/empresas/form.tsx:25-35 | a single space passes the required rules (`nonempty` does not trim) |
| CompanyForm.Submit | app/empresas/form.tsx:68-86 | valid data goes to `/empresas`; invalid data shows its errors and the banner |
| DeleteList.ListPage.HandleDelete | app/notas-fiscais/page.tsx:77-80 | the id waits and the dialog opens |
| DeleteList.ListPage.ConfirmDelete | app/notas-fiscais/page.tsx:82-88 | with a pending id, exactly the records with it go, in order, and the dialog closes |
| DeleteList.ListPage.CancelDelete | app/notas-fiscais/page.tsx:90-93 | the dialog closes and the pending id is forgotten |
| InvoiceList.ActionsFollowBadge | app/notas-fiscais/page.tsx:131-144 | actions show exactly on rows without the destructive badge |
| InvoiceList.InitialInvoicesFacts | app/notas-fiscais/page.tsx:28-144 | the sample ids are distinct, and only the second sample hides its actions |
| InvoiceList.CancelledSurviveDelete | app/notas-fiscais/page.tsx:82-144 | a delete opened from a row never removes a cancelled invoice |
| InvoiceList.Mount | app/notas-fiscais/page.tsx:73-75 | the page starts with the samples and a closed dialog |
| InvoiceList.DeleteSample | app/notas-fiscais/page.tsx:77-88 | deleting a sample leaves the other three in order |
| CompanyList.InitialCompaniesFacts | app/empresas/page.tsx:27-52 | the sample ids are distinct and every sample CNPJ has the form's format |
| CompanyList.Mount | app/empresas/page.tsx:62-64 | the page starts with the samples and a closed dialog |
| CompanyList.DeleteSample | app/empresas/page.tsx:66-77 | deleting a sample leaves the other three in order |
| CompanyList.CancelThenConfirm | app/empresas/page.tsx:66-82 | a cancelled delete removes nothing even if confirmed afterwards |
| UserAdmin.Filtered | app/admin/usuarios/page.tsx:222-226 | a user is kept exactly when name or e-mail contains the query, ignoring case |
| UserAdmin.FilteredAppend | app/admin/usuarios/page.tsx:222-226 | filtering keeps the users' order |
| UserAdmin.EmptyQueryKeepsAll | app/admin/usuarios/page.tsx:222-226 | the empty query keeps every user |
| UserAdmin.QueryCaseIgnored | app/admin/usuarios/page.tsx:224-225 | the query's case does not matter |
| UserAdmin.TotalPages | app/admin/usuarios/page.tsx:228 | the pages are the fewest pages of ten holding the list |
| UserAdmin.EndIndex | app/admin/usuarios/page.tsx:230 | a page ends ten further on or at the end of the list, whichever comes first |
| UserAdmin.Page | app/admin/usuarios/page.tsx:229-231 | a page holds at most ten users, the slice of the list from its start, and is empty exactly past the end |
| UserAdmin.PagesUpToPrefix | app/admin/usuarios/page.tsx:229-231 | the first `k` pages are the first `10 k` users |
| UserAdmin.PageSlice | app/admin/usuarios/page.tsx:229-231 | page `k` is the slice of the list between what the first `k - 1` and the first `k` pages cover |
| UserAdmin.PagesPartition | app/admin/usuarios/page.tsx:228-231 | the pages, read in order, give back the whole list |
| UserAdmin.PagesInRange | app/admin/usuarios/page.tsx:228-231 | a page is non-empty exactly when it is at most the page count |
| UserAdmin.RangeLabel | app/admin/usuarios/page.tsx:420-421 | on a page in range the label counts the users shown; ten users on page 2 read "11-10" |
| UserAdmin.CreateErrors | app/admin/usuarios/page.tsx:65-79 | name shorter than 2, an invalid e-mail, a password under 6 and a missing or unknown role each get their message: a missing role "Selecione uma função.", an unknown one the enum message naming the value |
| UserAdmin.EditErrors | app/admin/usuarios/page.tsx:109-123 | the same as creation, except that an empty password passes |
| UserAdmin.EditAcceptsMore | app/admin/usuarios/page.tsx:65-123 | whatever creation accepts, editing accepts; the create default password is refused by creation only |
| UserAdmin.PayloadKeepsVerdict | app/admin/usuarios/page.tsx:198-202 | dropping an empty password leaves the edit schema's verdict as it was, and the payload passes the full create rules exactly when the typed values pass the edit rules |
| UserAdmin.UsersPage.FetchUsers | app/admin/usuarios/page.tsx:129-141 | a reply replaces the users and clears the message; a failure keeps them and sets it; loading ends; nothing else changes |
| UserAdmin.UsersPage.GoToPage | app/admin/usuarios/page.tsx:233-237 | the page changes exactly when the target is in range, and nothing else changes |
| UserAdmin.UsersPage.NextPage | app/admin/usuarios/page.tsx:239-243 | moves on by one only before the last page; nothing else changes |
| UserAdmin.UsersPage.PrevPage | app/admin/usuarios/page.tsx:245-249 | moves back by one only after the first page; nothing else changes |
| UserAdmin.UsersPage.SetSearchQuery | app/admin/usuarios/page.tsx:251-292 | a new query goes back to page 1 and filters the users by it; nothing else changes |
| UserAdmin.UsersPage.HandleDelete | app/admin/usuarios/page.tsx:143-146 | the id waits and the dialog opens; nothing else changes |
| UserAdmin.UsersPage.CancelDelete | app/admin/usuarios/page.tsx:143-164 | only the dialog closes; the pending id stays |
| UserAdmin.UsersPage.ConfirmDelete | app/admin/usuarios/page.tsx:148-164 | with a pending id, the delete request is sent; success removes exactly the users with that id, in order, failure sets the message; either way the dialog closes, the id is cleared, loading is off and nothing else changes, so the page is not moved; without one nothing happens |
| UserAdmin.UsersPage.HandleCreateSubmit | app/admin/usuarios/page.tsx:166-180 | the registration is sent; success appends the backend's user, closes the dialog and clears the message; failure sets it; submitting ends; nothing else changes |
| UserAdmin.UsersPage.SubmitCreate | app/admin/usuarios/page.tsx:501 | the handler runs exactly when the create schema accepts the values; otherwise nothing changes |
| UserAdmin.UsersPage.HandleEditClick | app/admin/usuarios/page.tsx:182-190 | the user is selected and the dialog opens with their name, e-mail and role and no password; nothing else changes |
| UserAdmin.UsersPage.HandleEditSubmit | app/admin/usuarios/page.tsx:192-220 | with a selected user the payload is PUT to that user's path; success replaces every user with that id, closes the dialog and clears the selection and message; failure sets it; submitting ends; nothing else changes; without one nothing happens |
| UserAdmin.UsersPage.SubmitEdit | app/admin/usuarios/page.tsx:614 | the handler runs exactly when the edit schema accepts the values, and sends only with a selected user |
| UserAdmin.DeleteListedUser | app/admin/usuarios/page.tsx:153 | with unique ids, deleting a listed user removes exactly that entry |
| UserAdmin.EditKeepsUniqueIds | app/admin/usuarios/page.tsx:205-207 | replacing a user by id keeps the ids unique |
| Records.WithoutId | app/admin/usuarios/page.tsx:153 | the filtered list holds exactly the records with another id |
| Records.WithoutPresentUniqueId | app/empresas/page.tsx:73 | with unique ids, filtering out a listed id removes exactly its entry |
| Rules.RequiredCheck | app/notas-fiscais/form.tsx:152-155 | a required text fails exactly when it is blank after trimming |
| Rules.RecordedAll | app/notas-fiscais/form.tsx:148-189 | after every rule, a field holds a message exactly when it is one of the fields and its rule fails |
| Rules.RecordStep | app/notas-fiscais/form.tsx:152-155 | running the next rule adds its message, when it fails, to those recorded so far and changes nothing else |
| Rules.ApplyRule | app/notas-fiscais/form.tsx:152-155 | one `if` block of `validateForm`: the errors become those of one more rule, and `isValid` stays true exactly while no message has been recorded |
| Text.Trim | app/notas-fiscais/emitir/page.tsx:148 | the trimmed text is empty exactly for blank text, and otherwise starts and ends with a non-space |
| Text.TrimCuts | app/notas-fiscais/emitir/page.tsx:148 | the trimmed text is the slice of the text between a run of leading and a run of trailing white space |
| Text.TrimIsSlice | app/notas-fiscais/emitir/page.tsx:148 | the trimmed text starts after the leading white space and stops before the trailing white space of the rest |
| Text.IncludesIffOccurrence | app/admin/usuarios/page.tsx:224-225 | containment holds exactly when the query occurs at some offset |
| Text.DecimalRoundTrip | app/notas-fiscais/form.tsx:126 | reading the decimal text of a number gives the number |
| Text.IntTextInjective | app/notas-fiscais/form.tsx:206 | distinct integers have distinct texts |
| Text.DigitsOnly | app/notas-fiscais/form.tsx:124 | the result is all digits and no longer than the text |
| Text.DigitsOnlyAppend | app/notas-fiscais/form.tsx:124 | stripping the non-digits works piece by piece, so the digits keep their order |
| Text.DigitsOnlyOfDigits | app/notas-fiscais/form.tsx:124 | a text of digits is kept whole |
| Text.LeadingZeroValue | app/notas-fiscais/form.tsx:126 | leading zeros do not change the value |

## Left out

- Network, routing and timers are inputs or results. Backend replies are `Reply` parameters. `router.push` and `window.location.href` assignments are a recorded location: the component's own for the one that navigates, and the shared `Browser`'s for the API client's 401 redirect. The `setTimeout` delays are split into separate methods, and the footer's `setInterval` polling is a sequence of fetches.
- Statistics.StatisticsProvider.FinishRefresh, Footer.FooterStats.FetchStats, InvoiceForm.FormPage.LoadCompanies, InvoiceForm.FormPage.FinishSubmit, UserAdmin.UsersPage.FetchUsers, ConfirmDelete, HandleCreateSubmit and HandleEditSubmit: a 401 reaches these as a `Failed` reply with its status, and they handle it like any failure. The API client's clean-up and redirect for it (Api.Browser.InterceptError) is not composed into them, because these classes hold no `Browser`; only the login flow composes it.
- Concurrency is not modelled. Overlapping requests, double submits and a reply arriving after the component unmounts are out of scope.
- `JSON.parse` and `JSON.stringify`: they are parameters; the relation between them is assumed where login-then-reload relies on it.
- zod's `.email()` is the parameter `isEmail`. zod counts lengths in UTF-16 code units; the model counts characters.
- `toLowerCase` and `trim` are modelled on characters. Lowering covers ASCII letters only, and trimming uses the ECMAScript whitespace set. There is no Unicode case folding.
- InvoiceForm.Display: the `pt-BR` thousands grouping of `toLocaleString` is left out. Since grouping dots are non-digits, reading the amount back is unaffected.
- The amount field is a whole number of cents. The `cents / 100` float and `parseInt`'s loss of precision beyond 2^53 are not modelled.
- In `handleChange` of the invoice form, the `valor` branch is left out. It cannot be reached, because the amount input calls `handleCurrencyInput` instead.
- Cookie options such as expiry and path are not modelled. Neither is the URL encoding of `callbackUrl`.
- RouteGuard.Guard: the matcher is read as a plain prefix test on the path. Line terminators, which `.` does not match, are not modelled.
- `formatCNPJ` and `formatPhone` are not part of this model.
- Toasts, page titles, button labels, icons and markup are not modelled, and neither are the edit-page wrappers that load a record by id.
- Statistics numbers are plain integers, and ids are integers, so `NaN` ids are not modelled.

# Beleza Pura admin console — verified model

Beleza Pura is the browser-side admin console of a small salon. The console lists and edits clients, professionals, appointments and finance entries through a REST backend. Its home dashboard summarises the day and the month.

This project models the parts of the console that compute something:

- **The dashboard aggregation, in both copies.** `src/services/api.ts` and `src/services/dashboardService.ts` each hold a copy. Each copy takes the fetched lists of appointments, clients, finance entries and users, plus the current moment, and derives these figures:
  - today's appointment count;
  - paid revenue for the day and for the month;
  - clients of the month;
  - the five most frequent services;
  - the five next appointments;
  - the pending payments;
  - a team summary.
- **`profissionalService.list`**, which filters the users by profile.
- **The list and form logic of four pages:**
  - Clientes: pagination and the create/edit/delete flow;
  - ListaFinanceiro: the status filter and delete-by-id;
  - Profissionais: validation and the request it sends;
  - ClientesAgendados: a validated append to a local list.
- **The session state of `AuthContext`**: token, user and loading flag.

## How the model is written

Modules follow the source:

| File | Contents |
|---|---|
| `common.dfy` | Option, Result, fetch outcomes, requests |
| `seqs.dfy` | The JavaScript array operations the code chains: `filter`, `reduce`, `slice`, `map`, `flat`, `Array.from(new Set(...))`, `sort` |
| `records.dfy` | The backend records |
| `metrics.dfy` | The figures both dashboard copies compute alike |
| `api_dashboard.dfy` | The `api.ts` copy |
| `service_dashboard.dfy` | The `dashboardService.ts` copy |
| `clientes.dfy`, `lista_financeiro.dfy`, `profissionais.dfy`, `clientes_agendados.dfy`, `auth_context.dfy` | One module per page or context |

Dates are given as instants in milliseconds:

- **Days.** The day of an instant is its UTC day number, `t / 86400000`. Two ISO date strings (`toISOString().split('T')[0]`) are equal exactly when these numbers are.
- **Months.** The local month number (`getMonth() + 1`) depends on the browser's time zone, so it is a given function carried in `Env` together with "now".

The service tally writes into an object in place (`acc[curr.servico] = ...`). It is modelled as a method with a loop over a map and an insertion-ordered key list. The method is proved equal to the function `ServiceTally`, and each dashboard's `GetDashboardData` method calls it.

State that the pages update through React setters is modelled as class fields: Clientes, Profissionais, ClientesAgendados and the auth provider. A reply from the backend is a parameter:

- `Rejected` when `fetch` throws;
- `Resolved(ok)` with the Fetch API's `ok` flag otherwise.

ListaFinanceiro only replaces its list wholesale, so its operations are functions.

Two behaviours of the code are easy to misread:

- **Months ignore the year.** The month test compares only the month number, so a paid entry from the same month of another year counts.
- **Missing prices differ between copies.** The `api.ts` copy reads a missing price as 0. The `dashboardService.ts` copy has no default, so its sum becomes `NaN`. `ServiceDashboard.Revenue` models `NaN` as `None`.

Two further points:

- In `dashboardService.ts` the team count compares `perfil` with upper-case `'PROFISSIONAL'`, while the `Perfil` enum values are lower case.
- In `Profissionais.tsx`, validation requires an email, so the POST branch of `handleSubmit` is never taken.

## Model

| member | source | states |
|---|---|---|
| Metrics.TodayAppointments | src/services/api.ts:165-168 | The count of today's appointments is exactly the number of positions whose UTC day equals today's, so it never exceeds the list length |
| Metrics.MonthlyClients | src/services/api.ts:188-191 | Clients of the month are the clients whose birth date's local month number equals the current one, whatever the year; at most the client count |
| Metrics.PendingPayments | src/services/api.ts:220-222 | Counts exactly the finance entries with status `PENDENTE`; at most the entry count |
| Metrics.ServiceTally | src/services/api.ts:194-197 | Every appointment's service appears once, each with its number of occurrences (at least 1), and nothing else appears |
| Metrics.CountServices | src/services/api.ts:194-197 | The in-place tally loop over the appointments yields exactly `ServiceTally` of their services, keys in first-seen order |
| Metrics.CountedSnoc | src/services/api.ts:193-196 | One step of the reduce keeps the tally object exact: a service not yet counted is appended as a new key with count 1, a known one has its count raised by one, and every count equals the occurrences seen so far |
| Metrics.Rows | src/services/api.ts:198-199 | `Object.entries` gives one row per key, in key order, each with that key's count |
| Metrics.RowsAreTally | src/services/api.ts:193-199 | A tally object whose keys are the services in first-seen order, with exact counts, lists the rows of `ServiceTally` |
| Metrics.RankedServicesFromTally | src/services/api.ts:199-202 | Every ranked row is a row of the tally |
| Metrics.RankedServicesCounts | src/services/api.ts:199-202 | Each ranked row's count is its service's number of occurrences, at least 1 |
| Metrics.RankedServicesDistinct | src/services/api.ts:199-202 | Ranked service names are pairwise distinct |
| Metrics.RankedServicesComplete | src/services/api.ts:199-202 | Every appointment's service is ranked |
| Metrics.TopServicesRanked | src/services/api.ts:199-202 | At most 5 rows; counts are non-increasing; names are distinct; each count equals the occurrences. A service left out only happens when 5 rows are shown, each with a count at least its own |
| Metrics.ShownOrOutranked | src/services/api.ts:199-202 | A service of some appointment is among the top rows, or 5 rows are shown and each occurs at least as often as it |
| Metrics.UpcomingSortedIsFuture | src/services/api.ts:205-207 | The sorted candidates are exactly the appointments at or after now, each as often as in the input (equal multisets) |
| Metrics.NextAppointmentsOrdered | src/services/api.ts:205-217 | The rows are the first 5 of some time-sorted permutation of the appointments at or after now (so no appointment appears more often than in the input), mapped to rows: exactly min(5, their number) rows, each at or after now with `valor` 0, in ascending time |
| Metrics.FirstFiveOrdered | src/services/api.ts:207-217 | From a time-sorted list of appointments at or after now, the first 5 rows are at most 5, each at or after now with `valor` 0, in ascending time |
| Metrics.NextAppointmentsCopied | src/services/api.ts:208-217 | Each row copies id, client id, service, time and status of some appointment, with `valor` 0 |
| Metrics.NextAppointmentsEarliest | src/services/api.ts:205-208 | A future appointment is either shown, or 5 rows are shown, none later than it |
| Metrics.ShownOrPreceded | src/services/api.ts:206-208 | In a time-sorted list, taking the first 5 shows an element or fills 5 rows no later than it |
| ApiDashboard.RevenueContribution | src/services/api.ts:171-176 | Inserting one entry into a filtered revenue sum adds its price (0 when absent) exactly when it passes the filter |
| ApiDashboard.DailyRevenueCountsPaidToday | src/services/api.ts:171-176 | Daily revenue starts at 0. An entry adds its price (0 when absent) exactly when it is `PAGO` and created today; other statuses never contribute |
| ApiDashboard.MonthlyRevenueCountsPaidInMonth | src/services/api.ts:179-185 | Monthly revenue starts at 0. An entry adds its price exactly when it is `PAGO` and its local month number is the current one |
| ApiDashboard.MonthlyRevenueIgnoresYear | src/services/api.ts:179-185 | Ledgers that agree on status, price and month number have the same monthly revenue, whatever their years |
| ApiDashboard.SumWhereAgrees | src/services/api.ts:181-185 | The paid-in-month sum depends only on status, price and month number of each entry |
| ApiDashboard.ProfessionalMembers | src/services/api.ts:225-226 | The team filter keeps exactly the users of profile `profissional` |
| ApiDashboard.OfferedByProfessional | src/services/api.ts:225-236 | Every offered service belongs to a user of profile `profissional` that has `servicos` |
| ApiDashboard.ProfessionalOffers | src/services/api.ts:225-236 | Every service of a user of profile `profissional` is offered |
| ApiDashboard.RoleOfProfessional | src/services/api.ts:225-241 | Every listed role is the role of a user of profile `profissional` |
| ApiDashboard.ProfessionalHasRole | src/services/api.ts:225-241 | The role of every user of profile `profissional` is listed |
| ApiDashboard.UniqueServicesExact | src/services/api.ts:234-236 | `servicosUnicos` is duplicate-free and in first-occurrence order. It holds exactly the services of users with profile `profissional`; a missing `servicos` counts as empty |
| ApiDashboard.UniqueRolesExact | src/services/api.ts:239-241 | `cargosUnicos` is duplicate-free, in first-occurrence order, and holds exactly the roles of users with profile `profissional` |
| ApiDashboard.ListProfessionals | src/services/api.ts:419 | `profissionalService.list` keeps only users of profile `profissional`, each as often as in the input |
| ApiDashboard.ListProfessionalsKeepsOrder | src/services/api.ts:419 | The list keeps the input order (it distributes over concatenation), and an all-professional list comes back whole |
| ApiDashboard.ListProfessionalsIsTeamFilter | src/services/api.ts:88-91 | Both disjuncts name the same string, `Perfil.PROFISSIONAL` being `profissional`, so the list equals the dashboard's team filter |
| ApiDashboard.GetDashboardData | src/services/api.ts:164-262 | Returns the dashboard of the given lists. Today's count is at most the appointment count; `totalClients` is the client count; `financial` mirrors the top-level daily, monthly and pending values; at most 5 top services and 5 next appointments |
| ServiceDashboard.StrictSumDefinedWhenAllPriced | src/services/dashboardService.ts:49 | Adding prices without a default gives a number exactly when every entry has a price, and then the same sum as with absent prices read as 0 |
| ServiceDashboard.FilteredStrictSum | src/services/dashboardService.ts:47-57 | A filtered strict sum is `NaN` exactly when some entry passing the filter lacks a price |
| ServiceDashboard.KeptPricedIffPassingPriced | src/services/dashboardService.ts:47-57 | The entries a revenue filter keeps all have prices exactly when every entry passing the filter has one |
| ServiceDashboard.DailyRevenueMatchesApi | src/services/dashboardService.ts:47-49 | Daily revenue is `NaN` exactly when an entry paid today has no price, and otherwise equals the `api.ts` daily revenue |
| ServiceDashboard.MonthlyRevenueMatchesApi | src/services/dashboardService.ts:51-57 | Monthly revenue is `NaN` exactly when an entry paid in the current month number has no price, and otherwise equals the `api.ts` monthly revenue |
| ServiceDashboard.ActiveProfessionals | src/services/dashboardService.ts:92 | Counts exactly the users whose `perfil` is the upper-case `PROFISSIONAL`; at most the user count |
| ServiceDashboard.NoActiveProfessionalsForEnumProfiles | src/services/dashboardService.ts:92 | When every profile is an enum value (`admin`, `profissional`), the active count is 0 |
| ServiceDashboard.DashboardsAgree | src/services/dashboardService.ts:42-107 | Both copies report the same today count, clients of the month, top services, next appointments, pending count and client total. Their revenues agree whenever this copy's is a number, and always when every entry has a price |
| ServiceDashboard.GetDashboardData | src/services/dashboardService.ts:42-113 | Returns this copy's dashboard. `financial` mirrors the top-level values; on-break and absent are always 0; the active count is at most the user count |
| Clientes.Page | src/pages/Clientes.tsx:69-72 | Page p holds the clients at indices (p-1)*5 to p*5-1 that exist: at most 5, and fewer only on the last page |
| Clientes.TotalPages | src/pages/Clientes.tsx:73 | The page count is ceil(n/5): enough pages for n clients, no page to spare, and 0 exactly for an empty list |
| Clientes.EveryClientOnOnePage | src/pages/Clientes.tsx:69-73 | Client k is on page k/5+1, at position k%5; that page is within 1..totalPaginas, and no other page holds k |
| Clientes.PagesArePrefix | src/pages/Clientes.tsx:69-72 | Pages 1..m in order are the first min(5m, n) clients |
| Clientes.PagesCoverList | src/pages/Clientes.tsx:69-73 | Pages 1..totalPaginas in order give back the whole list; any page beyond is empty |
| Clientes.EditTarget | src/pages/Clientes.tsx:65 | The edited id is the client's id when present and non-empty, and null otherwise |
| Clientes.SubmitRequest | src/pages/Clientes.tsx:34-43 | PATCH on `/clientes/{id}` exactly when an id is being edited, POST on `/clientes` otherwise, with the form as body |
| Clientes.ClientesPage.Shown | src/pages/Clientes.tsx:69-72 | The table shows at most 5 clients |
| Clientes.ClientesPage.constructor | src/pages/Clientes.tsx:12-18 | Empty list, empty form, both modals closed, no target, page 1, not editing |
| Clientes.ClientesPage.Loaded | src/pages/Clientes.tsx:21-26 | A completed fetch replaces the list and nothing else |
| Clientes.ClientesPage.OpenNew | src/pages/Clientes.tsx:80-84 | "Novo Cliente" empties the form, stops editing and opens the modal |
| Clientes.ClientesPage.OpenEdit | src/pages/Clientes.tsx:63-67 | Copies nome, telefone and cpf into the form, edits the client's id or null, and opens the modal |
| Clientes.ClientesPage.CloseModal | src/pages/Clientes.tsx:149 | Closes the modal and changes nothing else |
| Clientes.ClientesPage.Change | src/pages/Clientes.tsx:157-180 | The `onChange` of the nome, telefone or cpf input sets that form field and keeps the other two and the rest of the page state |
| Clientes.ClientesPage.Submit | src/pages/Clientes.tsx:32-51 | Called only with nome, telefone and cpf filled in (the inputs are `required`). Sends the PATCH/POST request. Only an ok reply clears the form, stops editing, closes the modal and re-fetches; otherwise that state is unchanged |
| Clientes.ClientesPage.AskDelete | src/pages/Clientes.tsx:116-119 | Sets the delete target and opens the confirmation |
| Clientes.ClientesPage.CancelDelete | src/pages/Clientes.tsx:199 | Closes the confirmation and keeps the target |
| Clientes.ClientesPage.ConfirmDelete | src/pages/Clientes.tsx:53-61 | Does nothing unless the target has an id. Otherwise it sends DELETE `/clientes/{id}`; once that settles, whatever the status, it clears the target, closes the confirmation and re-fetches |
| Clientes.ClientesPage.GoToPage | src/pages/Clientes.tsx:133-139 | Button i selects page i+1, an existing non-empty page |
| ListaFinanceiro.Visible | src/pages/ListaFinanceiro.tsx:64-66 | Under a status filter, exactly the entries with that status, each as often as in the list |
| ListaFinanceiro.VisibleAll | src/pages/ListaFinanceiro.tsx:64-66 | With "todos" the whole list is shown |
| ListaFinanceiro.VisibleKeepsOrder | src/pages/ListaFinanceiro.tsx:64-66 | Shown entries keep the list's order |
| ListaFinanceiro.EntradasSaidasPartition | src/pages/ListaFinanceiro.tsx:11-66 | When every status is `Entrada` or `Saída`, the two views partition the list |
| ListaFinanceiro.ExcluirLancamento | src/pages/ListaFinanceiro.tsx:43-61 | Sends DELETE on `/financeiro/{id}` with no body; an ok reply then removes every entry with that same id and keeps all others, each as often as before; an error status or a rejected request leaves the list unchanged |
| ListaFinanceiro.DeleteKeepsOthers | src/pages/ListaFinanceiro.tsx:52-54 | Deleting keeps the remaining entries in order, and deleting an id no entry has changes nothing |
| Profissionais.SomeFalsy | src/pages/Profissionais.tsx:64 | `some` over field names is true exactly when one of the named fields is missing or empty |
| Profissionais.AnyEmptyIffRequiredEmpty | src/pages/Profissionais.tsx:63-64 | Validation fails exactly when nome, email, senha or cargo is empty |
| Profissionais.OptionalFieldsNeverRequired | src/pages/Profissionais.tsx:63 | horario, servicos, perfil and telefone never change the validation verdict |
| Profissionais.RequestFor | src/pages/Profissionais.tsx:61-82 | No request is sent exactly when a required field is empty; any request sent is PATCH `/profissionais/{email}` with the form, so POST is unreachable |
| Profissionais.WithField | src/pages/Profissionais.tsx:55-58 | The named field takes the value and every other field keeps its own |
| Profissionais.ProfissionaisPage.constructor | src/pages/Profissionais.tsx:17-28 | Form hidden, all eight fields empty |
| Profissionais.ProfissionaisPage.Change | src/pages/Profissionais.tsx:55-58 | Updates only the named field |
| Profissionais.ProfissionaisPage.Toggle | src/pages/Profissionais.tsx:130 | Flips form visibility and leaves the form data alone |
| Profissionais.ProfissionaisPage.Submit | src/pages/Profissionais.tsx:61-103 | An invalid form sends nothing. An ok reply resets all eight fields, hides the form and re-fetches. Any other outcome leaves the form unchanged |
| ClientesAgendados.WithAgendadoField | src/pages/ClientesAgendados.tsx:24-27 | The named field takes the value and the other two keep theirs |
| ClientesAgendados.ClientesAgendadosPage.constructor | src/pages/ClientesAgendados.tsx:11-22 | Starts with exactly the 3 sample clients, an empty form and the modal closed |
| ClientesAgendados.ClientesAgendadosPage.Change | src/pages/ClientesAgendados.tsx:24-27 | Updates only the named field |
| ClientesAgendados.ClientesAgendadosPage.Open | src/pages/ClientesAgendados.tsx:58 | Opens the modal |
| ClientesAgendados.ClientesAgendadosPage.Cancel | src/pages/ClientesAgendados.tsx:97 | Closes the modal and keeps the form |
| ClientesAgendados.ClientesAgendadosPage.Submit | src/pages/ClientesAgendados.tsx:29-38 | A complete form is appended at the end (prior entries unchanged, in order), then the form is reset and the modal closed. An incomplete one changes nothing. Every listed client stays complete |
| AuthContext.UserOf | src/contexts/AuthContext.tsx:23-28 | The user has id = email = the email claim, nome empty, and role = the perfil claim |
| AuthContext.GetItem | src/contexts/AuthContext.tsx:18 | Reading storage gives the stored value, or null when the key is absent |
| AuthContext.AuthProvider.constructor | src/contexts/AuthContext.tsx:14-15 | No user, loading |
| AuthContext.AuthProvider.Logout | src/contexts/AuthContext.tsx:54-57 | Removes `authToken` and sets the user to null |
| AuthContext.AuthProvider.Init | src/contexts/AuthContext.tsx:17-35 | A stored decodable token gives the user from its claims. An undecodable one logs out. No token leaves the user unchanged. Loading is false afterwards, and user/token consistency is kept |
| AuthContext.AuthProvider.Login | src/contexts/AuthContext.tsx:37-52 | With a token: it is stored, then the user is set from its claims, or, if it does not decode, the call throws with the user unchanged. Without a token or on request failure: throws with nothing changed. Consistency is kept except after a decode failure with a user already set |
| AuthContext.UseAuth | src/contexts/AuthContext.tsx:66-72 | Fails outside a provider, with its message, and returns the context otherwise |

## Left out

- HTTP, storage and concurrency. The axios instance and its request interceptor (`src/services/api.ts:8-14`), `fetch`, and the `Promise.all` of the four dashboard requests are not modelled; the fetched lists and each reply's outcome are parameters. The dashboard's own request failure (its `catch` and rethrow) is not modelled. `localStorage` is a map field of the auth provider.
- Re-fetching after a page action is reported through a `refetch` result, not performed. The new list arrives through `Clientes.ClientesPage.Loaded`.
- Logging, `alert` and the `Authorization` headers have no effect on the modelled state and are left out.
- Date parsing and display. `new Date(string)` is taken as already resolved to an instant. Invalid dates (on which `toISOString` throws) are not modelled. The `data`/`hora` display strings of the next appointments are represented by the instant `at`.
- Every `new Date()` read in one aggregation is taken to see the same instant, `env.now`.
- Numbers. Prices are whole amounts; floating-point addition and rounding are not modelled. The `dashboardService.ts` copy's `NaN` is `None`. A `null` price, which JavaScript adds as 0, and a string price, which concatenates, are not modelled.
- Metrics.Rows, Metrics.CountServices, Metrics.TopServicesRanked: the key order is first-seen order, which is that of `Object.entries` only for keys that are not integer-like; `Object.entries` lists integer-like keys first, in ascending order. The ranking does not state the order among services with equal counts, which this affects.
- Metrics.NextAppointmentsOrdered: does not state the order among appointments at the same instant.
- Metrics.CountServices: counts every service name alike. In JavaScript the tally is a plain object, so a service named after an inherited property behaves differently: `constructor` or `toString` yields a string count, and `__proto__` is never listed. Service names are taken to be ordinary keys.
- The dashboard fetches `/agendamento` in `api.ts` and `/agendamentos` in `dashboardService.ts`. Since requests are not modelled, both copies receive the same appointment list.
- AuthContext.AuthProvider.Login, AuthContext.AuthProvider.Init: a token whose payload decodes but lacks `email` or `perfil` gives a user with undefined fields in JavaScript; the model's claims always hold both. The login request itself (`userService.login`) is reduced to its outcome.
- `handleChange` with an input name the form does not have would add a property; all inputs of both forms carry one of the form's names, so this is excluded by a precondition.
- Profissionais: the list of professionals, its fetch and `handleDelete` are not modelled; they only call the backend.
- React batches state updates and runs handlers asynchronously. Each handler is modelled as one atomic step with the reply as input.
- The other services in `src/services/api.ts` (user, client, appointment, finance and payment clients) are one-line HTTP wrappers and are not part of this model. The same holds for the pages `Financeiro`, `Dashboard`, `Home`, `Login` and `Agendamentos`, for `Header` and `Sidebar`, and for `App.tsx` routing.

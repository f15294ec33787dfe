# pi-system authenticated data access, modelled in Dafny

pi-system is an Android personal-finance client. This project models its
authenticated data-access layer. The pieces are:

- **Session store** (`UserPreferences`): one key-value bucket holding the
  user id, the bearer token, the display name and the email. Missing keys read
  as defaults.
- **Request interceptor** (`AuthInterceptor`): adds `Authorization: Bearer <token>`
  to every request except login and register. It never blocks a request itself;
  the two ways it can throw are listed under "Left out".
- **Repositories**: each makes one remote call and turns the HTTP outcome into
  a `Resource` (`Loading | Success(data?) | Error(message?)`). They never throw.
- **Login and register use cases**: blank-field checks in a fixed order, then
  delegation to the repository.
- **View-state holders** (login, register, portfolio, net worth, profile):
  - they publish Loading, then one final state;
  - login and register save the returned session fields;
  - portfolio and net worth refuse to call the server when no user id is stored.
- **Screen rules** of the net-worth and portfolio screens:
  - label formatting and legend colours;
  - score and urgency colour bands;
  - which cards appear;
  - the order of the sector rows;
  - what each state shows.

The source's form is kept:

- Objects whose fields change are classes. The preference bucket is a
  `map`, and each remote service keeps a log of the calls it received.
- The view-state holders keep a ghost log of every publication. Each entry
  holds the state, the session at that moment, and how many server calls had
  been made. This is how the model states that Loading comes before the call,
  and that the session is written before Success is published.
- Pure rules are functions, with lemmas that relate them.
- Servers are fixed reply functions. The JSON decoder for error bodies is a
  function parameter.

## Model

| member | source | states |
|---|---|---|
| Preferences.NothingStoredReadsDefaults | app/src/main/java/com/example/pi_system/data/local/UserPreferences.kt:20-57 | an empty bucket reads as user id -1 and null token, name and email |
| Preferences.UserPreferences.constructor | app/src/main/java/com/example/pi_system/data/local/UserPreferences.kt:10-13 | the store starts with exactly the previously persisted bucket |
| Preferences.UserPreferences.SaveUserId | app/src/main/java/com/example/pi_system/data/local/UserPreferences.kt:15-18 | writes "user_id" only; the session changes in the user id alone |
| Preferences.UserPreferences.GetUserId | app/src/main/java/com/example/pi_system/data/local/UserPreferences.kt:20-24 | the stored id, or -1 when none is stored |
| Preferences.UserPreferences.SaveToken | app/src/main/java/com/example/pi_system/data/local/UserPreferences.kt:26-29 | writes "auth_token" only; the session changes in the token alone |
| Preferences.UserPreferences.GetToken | app/src/main/java/com/example/pi_system/data/local/UserPreferences.kt:31-35 | the stored token, or null |
| Preferences.UserPreferences.SaveName | app/src/main/java/com/example/pi_system/data/local/UserPreferences.kt:37-40 | writes "user_name" only; the session changes in the name alone |
| Preferences.UserPreferences.GetName | app/src/main/java/com/example/pi_system/data/local/UserPreferences.kt:42-46 | the stored name, or null |
| Preferences.UserPreferences.SaveEmail | app/src/main/java/com/example/pi_system/data/local/UserPreferences.kt:48-51 | writes "user_email" only; the session changes in the email alone |
| Preferences.UserPreferences.GetEmail | app/src/main/java/com/example/pi_system/data/local/UserPreferences.kt:53-57 | the stored email, or null |
| Preferences.UserPreferences.ClearUserId | app/src/main/java/com/example/pi_system/data/local/UserPreferences.kt:59-62 | removes only the id; token, name and email survive; afterwards not logged in |
| Preferences.UserPreferences.ClearAll | app/src/main/java/com/example/pi_system/data/local/UserPreferences.kt:64-67 | empties the bucket; every getter is back at its default; not logged in |
| Preferences.UserPreferences.IsLoggedIn | app/src/main/java/com/example/pi_system/data/local/UserPreferences.kt:69-71 | true iff an id other than -1 and a token are stored (a stored -1 counts as logged out) |
| Text.Contains | app/src/main/java/com/example/pi_system/data/remote/AuthInterceptor.kt:17-18 | true iff the pattern occurs at some position of the string |
| Interceptor.IsPublicEndpoint | app/src/main/java/com/example/pi_system/data/remote/AuthInterceptor.kt:17-18 | public iff the URL contains the login path or the register path at some position |
| Interceptor.RemoveAll | app/src/main/java/com/example/pi_system/data/remote/AuthInterceptor.kt:47 | keeps exactly the headers whose name differs from the given one, ignoring case |
| Interceptor.Values | app/src/main/java/com/example/pi_system/data/remote/AuthInterceptor.kt:47 | no longer than the header list; empty iff no header has that name, ignoring case |
| Interceptor.SetHeader | app/src/main/java/com/example/pi_system/data/remote/AuthInterceptor.kt:46-48 | after `header(name, value)` exactly one header of that name is left, with that value; every other header is kept in order |
| Interceptor.Outgoing | app/src/main/java/com/example/pi_system/data/remote/AuthInterceptor.kt:14-52 | URL and method never change; public URL or no token: the request is unchanged; otherwise the only Authorization value is "Bearer " + token and all other headers are kept |
| Interceptor.PublicIgnoresToken | app/src/main/java/com/example/pi_system/data/remote/AuthInterceptor.kt:17-27 | for a login or register URL the forwarded request does not depend on the stored token |
| Interceptor.PublicPathAnywhere | app/src/main/java/com/example/pi_system/data/remote/AuthInterceptor.kt:17-18 | any URL with the login or register path anywhere inside it is public |
| Interceptor.Chain.Proceed | app/src/main/java/com/example/pi_system/data/remote/AuthInterceptor.kt:65 | records the request handed on and returns the rest of the chain's response |
| Interceptor.Intercept | app/src/main/java/com/example/pi_system/data/remote/AuthInterceptor.kt:12-75 | proceeds exactly once, with the outgoing request, and returns that response unchanged |
| Remote.AuthApiService.Login | app/src/main/java/com/example/pi_system/data/repository/AuthRepositoryImpl.kt:71 | one recorded login call; the reply is the server's answer to that request |
| Remote.AuthApiService.Register | app/src/main/java/com/example/pi_system/data/repository/AuthRepositoryImpl.kt:23 | one recorded register call; the reply is the server's answer to that request |
| Remote.NetWorthApiService.GetNetWorth | app/src/main/java/com/example/pi_system/data/remote/NetWorthApiService.kt:10-11 | one recorded call per user id |
| Remote.PortfolioApiService.GetPortfolioSummary | app/src/main/java/com/example/pi_system/data/remote/PortfolioApiService.kt:10-11 | one recorded call per user id |
| Repositories.LoginResult | app/src/main/java/com/example/pi_system/data/repository/AuthRepositoryImpl.kt:65-114 | never Loading; Success iff a 2xx response carried a body, holding that body; every Error has a message |
| Repositories.RegisterResult | app/src/main/java/com/example/pi_system/data/repository/AuthRepositoryImpl.kt:15-63 | never Loading; Success iff a 2xx response carried a body, holding that body; every Error has a message |
| Repositories.SummaryResult | app/src/main/java/com/example/pi_system/data/repository/NetWorthRepositoryImpl.kt:13-45 | never Loading; Success iff a 2xx response carried a body, holding that body; every Error has a message |
| Repositories.NetWorthResult | app/src/main/java/com/example/pi_system/data/repository/NetWorthRepositoryImpl.kt:13-45 | the same settlement guarantee for the net-worth call |
| Repositories.PortfolioResult | app/src/main/java/com/example/pi_system/data/repository/PortfolioRepositoryImpl.kt:13-45 | the same settlement guarantee for the portfolio call |
| Repositories.LoginDecodedMessage | app/src/main/java/com/example/pi_system/data/repository/AuthRepositoryImpl.kt:91-95 | a decoded error body's message is the login error; a null one becomes "Login failed" |
| Repositories.LoginFallbacks | app/src/main/java/com/example/pi_system/data/repository/AuthRepositoryImpl.kt:92-102 | no error body gives "Login failed"; an undecodable one gives "Invalid email or password" |
| Repositories.RegisterDecodedMessage | app/src/main/java/com/example/pi_system/data/repository/AuthRepositoryImpl.kt:42-46 | a decoded error body's message is the register error; a null one becomes "Registration failed" |
| Repositories.RegisterFallbacks | app/src/main/java/com/example/pi_system/data/repository/AuthRepositoryImpl.kt:47-52 | no error body, or an undecodable one, gives the reason phrase or "Registration failed" |
| Repositories.TransportFailures | app/src/main/java/com/example/pi_system/data/repository/AuthRepositoryImpl.kt:108-113 | a thrown call or an unreadable error body gives the exception's message or "An error occurred", in all four repositories |
| Repositories.LoginRegisterAgree | app/src/main/java/com/example/pi_system/data/repository/AuthRepositoryImpl.kt:15-114 | login and register give the same result except where their fallbacks apply |
| Repositories.LoginRegisterFallbacksDiffer | app/src/main/java/com/example/pi_system/data/repository/AuthRepositoryImpl.kt:46 | a decoded null message gives "Login failed" for login and "Registration failed" for register |
| Repositories.SummaryErrorMessages | app/src/main/java/com/example/pi_system/data/repository/NetWorthRepositoryImpl.kt:30-38 | the summary repositories report the error-body text verbatim, or their own literal without one |
| Repositories.AuthRepositoryImpl.Login | app/src/main/java/com/example/pi_system/data/repository/AuthRepositoryImpl.kt:65-114 | exactly one login call, no register call; the result is LoginResult of the reply |
| Repositories.AuthRepositoryImpl.Register | app/src/main/java/com/example/pi_system/data/repository/AuthRepositoryImpl.kt:15-63 | exactly one register call, no login call; the result is RegisterResult of the reply |
| Repositories.NetWorthRepositoryImpl.GetNetWorth | app/src/main/java/com/example/pi_system/data/repository/NetWorthRepositoryImpl.kt:13-45 | exactly one call with the given id; the result is NetWorthResult of the reply |
| Repositories.PortfolioRepositoryImpl.GetPortfolioSummary | app/src/main/java/com/example/pi_system/data/repository/PortfolioRepositoryImpl.kt:13-45 | exactly one call with the given id; the result is PortfolioResult of the reply |
| UseCases.FirstBlank | app/src/main/java/com/example/pi_system/domain/usecase/RegisterUseCase.kt:13-21 | every field before the returned position is not blank, and the one at it is blank |
| UseCases.Rejection | app/src/main/java/com/example/pi_system/domain/usecase/RegisterUseCase.kt:13-21 | None iff no field is blank; otherwise the message of the first blank field |
| UseCases.LoginRejection | app/src/main/java/com/example/pi_system/domain/usecase/LoginUseCase.kt:13-18 | accepted iff neither email nor password is blank; a rejection carries one of the two fixed messages |
| UseCases.RegisterRejection | app/src/main/java/com/example/pi_system/domain/usecase/RegisterUseCase.kt:13-21 | accepted iff name, email and password are all non-blank; a rejection carries one of the three fixed messages |
| UseCases.LoginUseCaseResult | app/src/main/java/com/example/pi_system/domain/usecase/LoginUseCase.kt:12-22 | never Loading; every Error has a message; Success iff the checks pass and the server delivered a body |
| UseCases.RegisterUseCaseResult | app/src/main/java/com/example/pi_system/domain/usecase/RegisterUseCase.kt:12-25 | never Loading; every Error has a message; Success iff the checks pass and the server delivered a body |
| UseCases.LoginChecks | app/src/main/java/com/example/pi_system/domain/usecase/LoginUseCase.kt:13-18 | a blank email is reported first, then a blank password; accepted iff neither is blank |
| UseCases.RegisterChecks | app/src/main/java/com/example/pi_system/domain/usecase/RegisterUseCase.kt:13-21 | name, then email, then password; the mobile number is never checked; accepted iff none is blank |
| UseCases.LoginDelegation | app/src/main/java/com/example/pi_system/domain/usecase/LoginUseCase.kt:12-22 | a rejected login does not depend on the server; an accepted one is the repository's result, unmodified |
| UseCases.RegisterDelegation | app/src/main/java/com/example/pi_system/domain/usecase/RegisterUseCase.kt:12-25 | a rejected registration does not depend on the server; an accepted one is the repository's result, unmodified |
| UseCases.LoginUseCase.Invoke | app/src/main/java/com/example/pi_system/domain/usecase/LoginUseCase.kt:12-22 | the server gets one login call with the fields as given iff both checks pass, and none otherwise |
| UseCases.RegisterUseCase.Invoke | app/src/main/java/com/example/pi_system/domain/usecase/RegisterUseCase.kt:12-25 | the server gets one register call with the fields as given iff the three checks pass, and none otherwise |
| ViewState.StoreAuth | app/src/main/java/com/example/pi_system/presentation/login/LoginViewModel.kt:31-34 | saving the response's fields keeps the bucket well typed |
| ViewState.AfterAuth | app/src/main/java/com/example/pi_system/presentation/login/LoginViewModel.kt:30-34 | the bucket after a result stays well typed |
| ViewState.StoreAuthSession | app/src/main/java/com/example/pi_system/presentation/login/LoginViewModel.kt:31-34 | each non-null field replaces the stored one, a null field leaves it, and other keys are untouched |
| ViewState.NoWritesWithoutData | app/src/main/java/com/example/pi_system/presentation/login/LoginViewModel.kt:30 | an Error, or a Success without data, writes nothing |
| ViewState.FullResponseReplacesSession | app/src/main/java/com/example/pi_system/presentation/login/LoginViewModel.kt:30-34 | a response with all four fields replaces the whole session |
| ViewState.SuccessfulAuthLogsIn | app/src/main/java/com/example/pi_system/presentation/login/LoginViewModel.kt:31-32 | after a success carrying a token and an id, the session is logged in iff the id is not -1 |
| ViewState.SaveAuthFields | app/src/main/java/com/example/pi_system/presentation/login/LoginViewModel.kt:31-34 | the four conditional saves in order leave the bucket equal to StoreAuth |
| ViewState.Render | app/src/main/java/com/example/pi_system/presentation/networth/NetWorthScreen.kt:46-63 | spinner iff no state or Loading; content iff Success with data; error iff Error, with its message or the screen's fallback |
| LoginViewModels.LoginViewModel.constructor | app/src/main/java/com/example/pi_system/presentation/login/LoginViewModel.kt:16-22 | no state and nothing published yet |
| LoginViewModels.LoginViewModel.Publish | app/src/main/java/com/example/pi_system/presentation/login/LoginViewModel.kt:26-43 | the state becomes the published value, and the log gains it with the current session and call count |
| LoginViewModels.LoginViewModel.Login | app/src/main/java/com/example/pi_system/presentation/login/LoginViewModel.kt:24-45 | Loading is published before any call, with the old session; the session is written only on a Success with data, and before the result is published; the final state is the use case's result; the register call log is unchanged |
| RegisterViewModels.RegisterViewModel.constructor | app/src/main/java/com/example/pi_system/presentation/register/RegisterViewModel.kt:16-22 | no state and nothing published yet |
| RegisterViewModels.RegisterViewModel.Publish | app/src/main/java/com/example/pi_system/presentation/register/RegisterViewModel.kt:26-43 | the state becomes the published value, and the log gains it with the current session and call count |
| RegisterViewModels.RegisterViewModel.Register | app/src/main/java/com/example/pi_system/presentation/register/RegisterViewModel.kt:24-45 | the same as login, for registration; the login call log is unchanged |
| PortfolioViewModels.LoadResult | app/src/main/java/com/example/pi_system/presentation/portfolio/PortfolioViewModel.kt:32-41 | never Loading; id -1 gives "User not logged in"; otherwise the repository's settled result |
| PortfolioViewModels.PortfolioViewModel.constructor | app/src/main/java/com/example/pi_system/presentation/portfolio/PortfolioViewModel.kt:24-26 | construction runs exactly one load |
| PortfolioViewModels.PortfolioViewModel.Publish | app/src/main/java/com/example/pi_system/presentation/portfolio/PortfolioViewModel.kt:30-41 | the state becomes the published value, and the log gains it with the current session and call count |
| PortfolioViewModels.PortfolioViewModel.LoadPortfolioSummary | app/src/main/java/com/example/pi_system/presentation/portfolio/PortfolioViewModel.kt:28-49 | Loading, then one final state; no server call for id -1, else exactly one with the stored id, whether or not a token is stored |
| NetWorthViewModels.LoadResult | app/src/main/java/com/example/pi_system/presentation/networth/NetWorthViewModel.kt:32-41 | never Loading; id -1 gives "User not logged in"; otherwise the repository's settled result |
| NetWorthViewModels.NetWorthViewModel.constructor | app/src/main/java/com/example/pi_system/presentation/networth/NetWorthViewModel.kt:24-26 | construction runs exactly one load |
| NetWorthViewModels.NetWorthViewModel.Publish | app/src/main/java/com/example/pi_system/presentation/networth/NetWorthViewModel.kt:30-41 | the state becomes the published value, and the log gains it with the current session and call count |
| NetWorthViewModels.NetWorthViewModel.LoadNetWorth | app/src/main/java/com/example/pi_system/presentation/networth/NetWorthViewModel.kt:28-49 | Loading, then one final state; no server call for id -1, else exactly one with the stored id |
| ProfileViewModels.DisplayName | app/src/main/java/com/example/pi_system/presentation/profile/ProfileViewModel.kt:44 | the stored name, or "Guest User" |
| ProfileViewModels.DisplayEmail | app/src/main/java/com/example/pi_system/presentation/profile/ProfileViewModel.kt:45 | the stored email, or "guest@example.com" |
| ProfileViewModels.ThemePreferences.SetDarkMode | app/src/main/java/com/example/pi_system/presentation/profile/ProfileViewModel.kt:56 | records the value written |
| ProfileViewModels.ProfileViewModel.constructor | app/src/main/java/com/example/pi_system/presentation/profile/ProfileViewModel.kt:20-32 | starts in light mode as the guest, then shows the stored name and email or the guest defaults |
| ProfileViewModels.ProfileViewModel.LoadUserData | app/src/main/java/com/example/pi_system/presentation/profile/ProfileViewModel.kt:42-52 | name and email become the stored values or the guest defaults; dark mode is untouched |
| ProfileViewModels.ProfileViewModel.ToggleDarkMode | app/src/main/java/com/example/pi_system/presentation/profile/ProfileViewModel.kt:54-58 | forwards the switch position to the theme store unchanged |
| ProfileViewModels.ProfileViewModel.Logout | app/src/main/java/com/example/pi_system/presentation/profile/ProfileViewModel.kt:60-64 | the whole session store is cleared and the user is no longer logged in |
| Text.ReplaceChar | app/src/main/java/com/example/pi_system/presentation/networth/NetWorthScreen.kt:639 | same length; every occurrence of one character replaced, none left when the two differ, every other character kept |
| Text.IsBlank | app/src/main/java/com/example/pi_system/domain/usecase/LoginUseCase.kt:13-17 | blank iff every character is whitespace (so the empty string is blank) |
| Text.Lowercase | app/src/main/java/com/example/pi_system/presentation/networth/NetWorthScreen.kt:639 | same length; every character is mapped to its lower case |
| Text.CapitalizeFirst | app/src/main/java/com/example/pi_system/presentation/networth/NetWorthScreen.kt:640 | only the first character may change, to its title case; it is never left lower case |
| NetWorthScreen.Humanize | app/src/main/java/com/example/pi_system/presentation/networth/NetWorthScreen.kt:639-640 | same length as the key; no underscore; equal to the key with spaces for underscores, ignoring case; first character not lower case, the rest not upper case |
| NetWorthScreen.FormatAssetLabel | app/src/main/java/com/example/pi_system/presentation/networth/NetWorthScreen.kt:633-641 | a key outside the table gets the fallback; no asset label ever shows an underscore |
| NetWorthScreen.FormatLiabilityLabel | app/src/main/java/com/example/pi_system/presentation/networth/NetWorthScreen.kt:644-650 | a key outside the table gets the fallback; no liability label ever shows an underscore |
| NetWorthScreen.AssetLabels | app/src/main/java/com/example/pi_system/presentation/networth/NetWorthScreen.kt:633-641 | STOCK, CASH, LENDING and OTHER have fixed labels; every other key gets the fallback |
| NetWorthScreen.LiabilityLabels | app/src/main/java/com/example/pi_system/presentation/networth/NetWorthScreen.kt:644-650 | PERSONAL_LOAN and OTHER have fixed labels; every other key gets the fallback |
| NetWorthScreen.HumanizeEmpty | app/src/main/java/com/example/pi_system/presentation/networth/NetWorthScreen.kt:639-640 | the fallback for an empty key is empty |
| NetWorthScreen.TableWinsOverFallback | app/src/main/java/com/example/pi_system/presentation/networth/NetWorthScreen.kt:646-649 | PERSONAL_LOAN shows "Personal Loan", which the fallback gives for no key, since it never leaves a capital after the first character |
| NetWorthScreen.SliceColor | app/src/main/java/com/example/pi_system/presentation/networth/NetWorthScreen.kt:536 | a slice colour is always one of the palette colours |
| NetWorthScreen.AssetLegendColor | app/src/main/java/com/example/pi_system/presentation/networth/NetWorthScreen.kt:421-427 | the legend colour is the asset palette entry at index mod 4 |
| NetWorthScreen.LiabilityLegendColor | app/src/main/java/com/example/pi_system/presentation/networth/NetWorthScreen.kt:487-493 | the legend colour is the liability palette entry at index mod 4 |
| NetWorthScreen.LegendColors | app/src/main/java/com/example/pi_system/presentation/networth/NetWorthScreen.kt:421-427 | a legend colour depends only on index mod 4 and matches the chart slice at that index |
| NetWorthScreen.NetWorthCards | app/src/main/java/com/example/pi_system/presentation/networth/NetWorthScreen.kt:178-190 | the tax card appears iff the tax liability is positive; each breakdown chart appears iff its map is non-empty; no card appears twice |
| NetWorthScreen.NetWorthView | app/src/main/java/com/example/pi_system/presentation/networth/NetWorthScreen.kt:46-63 | spinner iff no state or Loading; error iff Error, with its message or "Failed to load net worth" |
| NetWorthScreen.NetWorthViewFallbacks | app/src/main/java/com/example/pi_system/presentation/networth/NetWorthScreen.kt:46-63 | no state and Loading show the spinner; an Error without a message shows "Failed to load net worth" |
| PortfolioScreen.ScoreCardBackground | app/src/main/java/com/example/pi_system/presentation/portfolio/PortfolioScreen.kt:165-169 | always faded; green iff score >= 70, orange iff 40-69, red iff below 40 |
| PortfolioScreen.ScoreNumberColor | app/src/main/java/com/example/pi_system/presentation/portfolio/PortfolioScreen.kt:191-195 | always opaque; green iff score >= 70, orange iff 40-69, red iff below 40 |
| PortfolioScreen.ScoreBands | app/src/main/java/com/example/pi_system/presentation/portfolio/PortfolioScreen.kt:165-195 | green iff score >= 70, orange iff 40-69, red iff below 40; the card is the number's colour, faded |
| PortfolioScreen.UrgencyCardBackground | app/src/main/java/com/example/pi_system/presentation/portfolio/PortfolioScreen.kt:338-342 | always faded; red iff "HIGH", orange iff "MEDIUM", blue for every other string |
| PortfolioScreen.UrgencyBadgeColor | app/src/main/java/com/example/pi_system/presentation/portfolio/PortfolioScreen.kt:363-367 | always opaque; red iff "HIGH", orange iff "MEDIUM", blue for every other string |
| PortfolioScreen.UrgencyBands | app/src/main/java/com/example/pi_system/presentation/portfolio/PortfolioScreen.kt:338-367 | red iff "HIGH", orange iff "MEDIUM", blue for every other string; card and badge agree |
| PortfolioScreen.AssessmentText | app/src/main/java/com/example/pi_system/presentation/portfolio/PortfolioScreen.kt:199 | same length, no underscore left, every underscore is a space, other characters kept |
| PortfolioScreen.PortfolioCards | app/src/main/java/com/example/pi_system/presentation/portfolio/PortfolioScreen.kt:107-157 | the next-action card appears iff its title is non-empty; the sector card iff there is a sector; score card first, market-cap card last |
| PortfolioScreen.InsertDescending | app/src/main/java/com/example/pi_system/presentation/portfolio/PortfolioScreen.kt:412 | inserting into a non-increasing list keeps it non-increasing and adds exactly that entry |
| PortfolioScreen.InsertKeepsTies | app/src/main/java/com/example/pi_system/presentation/portfolio/PortfolioScreen.kt:412 | an inserted entry goes before the entries of equal value, whose order is kept |
| PortfolioScreen.SectorRows | app/src/main/java/com/example/pi_system/presentation/portfolio/PortfolioScreen.kt:412 | the rows are a permutation of the allocation entries, in non-increasing order of value; entries with equal values keep their input order (a stable sort) |
| PortfolioScreen.PortfolioView | app/src/main/java/com/example/pi_system/presentation/portfolio/PortfolioScreen.kt:38-56 | spinner iff no state or Loading; error iff Error, with its message or "Failed to load portfolio" |
| PortfolioScreen.PortfolioViewFallbacks | app/src/main/java/com/example/pi_system/presentation/portfolio/PortfolioScreen.kt:38-56 | no state and Loading show the spinner; an Error without a message shows "Failed to load portfolio" |

## Left out

- Logging (`android.util.Log`, `printStackTrace`) is left out: it has no effect on results.
- Interceptor.Intercept: the Authorization-header log line is left out. It calls `substring(7)`, which throws on a pre-existing Authorization header shorter than seven characters, so the real method can throw there where the model returns a response.
- Coroutines and `viewModelScope` are left out. Each holder method runs to completion in one step, so concurrent loads and last-write-wins interleavings are not modelled.
- LiveData and StateFlow delivery to observers is not modelled; the ghost publication logs stand in for it.
- Disk persistence is left out. `SharedPreferences.apply()` is modelled as an immediate in-memory update, and the bucket's other keys are opaque.
- ProfileViewModels.ThemePreferences only records writes. The dark-mode flow collection (`observeThemePreferences`) is not modelled, and the flag stays at its initial value.
- ProfileViewModels.ProfileViewModel.constructor: the dark-mode flag is stated at its initial false only, because the theme flow is not modelled.
- Text.Lowercase, Text.CapitalizeFirst: only ASCII letters change case. Kotlin's full Unicode case mapping, including multi-character titlecase, is not modelled.
- NetWorthScreen.Humanize: the case properties hold for ASCII letters only, following Text.Lowercase.
- Interceptor.RemoveAll: header names are compared with ASCII case folding, as OkHttp does for header names.
- Interceptor.Outgoing: OkHttp's header-value check is not modelled. `header(...)` throws for a token holding a character other than tab or 0x20-0x7E, where the model still forwards the request.
- Doubles are modelled as `real`. NaN and -0.0 are not modelled, so the sector order for NaN values is not captured.
- Map iteration order of the breakdowns is modelled as the order of a sequence of entries. Duplicate keys are not excluded.
- Compose layout, donut drawing, currency and percentage formatting, and progress fractions are left out. They are drawing code over floats and locale libraries.
- Servers are fixed reply functions of the request. A server that answers the same request differently over time is not modelled.
- Retrofit, OkHttp and Gson internals are not modelled. Gson is a function from the error-body text to "failed" or a nullable message.
- Repositories.RegisterResult: `response.message()` is modelled as nullable, so the `?: "Registration failed"` arm after it is modelled as reachable. A present but empty reason phrase is kept as an empty message.
- The pass-through use cases `GetNetWorthUseCase` and `GetPortfolioSummaryUseCase` are not modelled separately. The summary holders call the repository directly.
- Payload fields that no modelled rule reads (totals, risk summary, market-cap split and others) are not part of the datatypes.
- Activities, navigation, dependency injection and the login and register forms are left out. They are wiring.
- Preferences.UserPreferences.constructor: the persisted file is assumed well typed (a Long under "user_id", strings under the other session keys). The real getters throw on a key stored with the other type.

# Horizon sector-rotation app: a Dafny model

This project models the logic of a small financial research web app and proves properties about it. The app has a Next.js front end and a FastAPI back end.

The app ranks market sectors each week and attaches a signal to each rank. It shows the ranking as an expandable table with a trend arrow against the previous analysis. It also publishes model portfolios of 3, 5 and 8 tickers per risk and horizon. FREE subscribers see a reduced view.

The model covers, file by file:

- **Sector table.** This covers the trend rule and signal colours of a row and the "details or upsell" panel. It also covers the table's pairing of each sector with its previous-week record, and the React key of each row (`SectorRow`, `SectorTable`, `SectorDetails`, `SectorTypes`).
- **Sector rotation page.** The date list, the "previous date" lookup and the fetch/complete cycle of the page state (`RotationsPage`).
- **Portfolios:**
  - the filter validation, the newest-first date sort and the grouping of recommendations by portfolio size (`PortfolioTypes`);
  - the `usePortfolioData` hook as a state machine (`PortfolioData`);
  - the product portfolio page with its redirect rule, header content and view (`PortfolioPage`);
  - the header's dropdowns and URL rewriting (`PortfolioHeader`, with `SearchParams` for `URLSearchParams.get`/`set`).
- **Dashboard.** The 3×3 strategy matrix and its FREE-tier locking, both as the page is written and as intended (`DashboardPage`).
- **FAQ.** The open/close toggle and the case-insensitive search (`FaqPage`).
- **Login and sign-up forms.** Pre-validation, provider error messages and the written user document (`LoginPage`, `SignupPage`).
- **Navigation bar.** Active links, the profile fetch, the tier badge and logout (`Navbar`).
- **Landing page.** Regimes, the date banner, the public data fetch, the five-stock preview and the hero cards (`LandingPage`).
- **Authentication context.** As a fold over auth-state callbacks (`AuthContext`).
- **Back end:**
  - the signal rule and the tier-shaped `/api/v1/dashboard` response (`DashboardApi`);
  - the get-or-create of the current user over the `users` table (`CurrentUser`, `UserModels`, `HttpErrors`).

## Conventions

- JavaScript `null`/`undefined` become `Option`. A string's truthiness is `Truthy`: present and non-empty.
- Dates are day or millisecond numbers (`int`). Scores and percentages are `real`.
- Number-to-text conversion and locale date formatting are function parameters.
- Network responses, the identity provider's answers, the random shuffle and the database's ordered query result are inputs to the operations.
- React state becomes a class. Each effect or handler is a method that takes the I/O results it awaits as parameters.

## Notable cross-file observations

These are stated as lemmas:

- **Tier spelling.** The back end's tier names are "FREE" and "PRO", but the navigation bar compares against "Pro". So a profile carrying a back-end tier name never gets the Pro colouring (`Navbar.BackendTierNeverProStyled`).
- **Landing-page regimes.** `calculate_signal` emits "Overweight", "Underweight" and "Neutral". The landing page's `getRegime` looks for "Bullish" and "Bearish". The landing page reads `/api/v1/dashboard/latest`, which `backend/app/main.py` does not define; assuming that endpoint labels rows with `calculate_signal` too, any card with a back-end signal shows either "Leading" or "Lagging" (`LandingPage.BackendSignalsRegimes`).
- **Row keys.** The key `analysis_date-sector` identifies a row only when the dates have equal length, which ISO dates do. Otherwise two rows can collide (`SectorTable.KeyInjective`, `SectorTable.KeyCollisionForUnequalDates`).
- **FREE dashboard response.** The FREE response is not shortened, despite the comment that announces a limit of four (`DashboardApi.FreeIsProWithoutDetails`).

## Model

| member | source | states |
|---|---|---|
| SectorRow.CalculateTrend | frontend/components/sector/SectorRow.tsx:24-32 | Stable when either score is missing; Up exactly when current > previous + 0.3; Down exactly when current < previous − 0.3 |
| SectorRow.StrictThreshold | frontend/components/sector/SectorRow.tsx:28-31 | equal scores, and a difference of exactly 0.3 either way, are Stable (the threshold is strict) |
| SectorRow.SwapScores | frontend/components/sector/SectorRow.tsx:24-32 | swapping current and previous turns Up into Down and back, and keeps Stable |
| SectorRow.SignalClasses | frontend/components/sector/SectorRow.tsx:11-47 | a signal that is a key of the table gets its mapped classes, any other signal the neutral slate fallback; never empty |
| SectorRow.BackendSignalsStyled | frontend/components/sector/SectorRow.tsx:47 | every signal the back end computes is a key of the style table; only Overweight and Underweight differ from the neutral fallback |
| SectorRow.TrendColor | frontend/components/sector/SectorRow.tsx:38-43 | emerald exactly for Up, red exactly for Down |
| SectorRow.View | frontend/components/sector/SectorRow.tsx:34-99 | the row's trend is the trend of its score against the paired previous score (Stable without one); the details panel is shown exactly when the row is open and is the `SectorDetails` rendering |
| SectorRow.Click | frontend/components/sector/SectorRow.tsx:52 | a click always changes the open state |
| SectorRow.ClickTwice | frontend/components/sector/SectorRow.tsx:52 | two clicks restore the open state |
| SectorDetails.Render | frontend/components/sector/SectorDetails.tsx:8-69 | the upsell with links /login and /signup exactly when the record has no market context; otherwise eight blocks with the fixed titles, each showing its own field, Allocation as the number followed by "%" |
| SectorDetails.ChoiceDependsOnlyOnPresence | frontend/components/sector/SectorDetails.tsx:8 | which panel is shown depends only on whether the extended fields are present; all upsells are identical; the block titles do not depend on the record |
| SectorTable.FindPrevious | frontend/components/sector/SectorTable.tsx:36-38 | the first previous record with the same sector name, or none exactly when no previous record has that name |
| SectorTable.RowKey | frontend/components/sector/SectorTable.tsx:42 | the key is the date, a dash, then the sector name, in that order |
| SectorTable.Build | frontend/components/sector/SectorTable.tsx:12-47 | "no data" exactly when the data is missing or empty; otherwise one row per record, in order, each with its key and its paired previous record (previous data defaulting to empty) |
| SectorTable.OmittedPreviousGivesStable | frontend/components/sector/SectorTable.tsx:12-38 | without previous data every row is unpaired and its trend is Stable |
| SectorTable.PairingIgnoresOrder | frontend/components/sector/SectorTable.tsx:36-38 | when sector names are unique in the previous data, the pairing does not depend on its order |
| SectorTable.KeyInjective | frontend/components/sector/SectorTable.tsx:42 | for dates of equal length, equal keys mean equal date and equal sector |
| SectorTable.KeyCollisionForUnequalDates | frontend/components/sector/SectorTable.tsx:42 | dates of unequal length let two different sectors share a key |
| SectorTable.DistinctKeys | frontend/components/sector/SectorTable.tsx:35-47 | records with distinct (date, sector) pairs and equal-length dates get pairwise distinct keys |
| RotationsPage.FindIndex | frontend/app/product/rotations/page.tsx:33-35 | the first index holding the selected date, or −1 exactly when it is absent |
| RotationsPage.PreviousDate | frontend/app/product/rotations/page.tsx:33-42 | the date after the selected one's first occurrence, none when it is last; an absent selection yields the first date |
| RotationsPage.PreviousIsNextOlder | frontend/app/product/rotations/page.tsx:33-42 | over strictly newest-first dates, the previous date of the i-th date is the (i+1)-th and is older |
| RotationsPage.RotationsPageState.constructor | frontend/app/product/rotations/page.tsx:10-14 | empty data, no dates, no selection, not loading |
| RotationsPage.RotationsPageState.OnDatesLoaded | frontend/app/product/rotations/page.tsx:16-22 | the dates become the parsed list and the selection its first element (none for an empty list) |
| RotationsPage.RotationsPageState.SelectDate | frontend/app/product/rotations/page.tsx:72-78 | the picker sets the selection |
| RotationsPage.RotationsPageState.BeginFetch | frontend/app/product/rotations/page.tsx:24-42 | nothing without a selection; otherwise loading, and a request for the selected date and its previous date |
| RotationsPage.RotationsPageState.CompleteFetch | frontend/app/product/rotations/page.tsx:44-59 | data becomes the current response; previous data the previous response, or empty when there is no previous date; loading ends |
| RotationsPage.RotationsPageState.View | frontend/app/product/rotations/page.tsx:81-90 | the loading message exactly while loading, otherwise the sector table of the data and previous data |
| SearchParams.Get | frontend/app/product/portfolio/page.tsx:189-190 | the value of the first parameter with the name, none exactly when no parameter has it |
| SearchParams.Without | frontend/components/portfolio/PortfolioHeader.tsx:72 | no parameter with the name remains; the parameters of every other name are kept in order |
| SearchParams.Set | frontend/components/portfolio/PortfolioHeader.tsx:71-73 | exactly one parameter with the name remains and holds the value; the result equals the URL standard's formulation (`SetSpec`): the pair takes the place of the first one with that name, or goes last when there was none, and every other parameter keeps its relative order |
| PortfolioTypes.FiltersValid | frontend/components/portfolio/usePortfolioData.tsx:37 | both filters are truthy and belong to the valid risk and horizon lists |
| PortfolioTypes.FiltersValidIsMembership | frontend/components/portfolio/usePortfolioData.tsx:37 | filters are valid exactly when both are present and in the valid risk and horizon lists |
| PortfolioTypes.InsertDescending | frontend/components/portfolio/usePortfolioData.tsx:45 | inserting into a newest-first list keeps it newest-first and adds exactly that date |
| PortfolioTypes.SortDescending | frontend/components/portfolio/usePortfolioData.tsx:45 | the result is newest-first and a permutation of the input |
| PortfolioTypes.FirstIsLatest | frontend/components/portfolio/usePortfolioData.tsx:45-49 | the first sorted date is one of the dates and no date is later |
| PortfolioTypes.SizeBucket | frontend/components/portfolio/usePortfolioData.tsx:93-98 | a bucket holds only recommendations of its size and is no longer than the input |
| PortfolioTypes.SizeBucketMembers | frontend/components/portfolio/usePortfolioData.tsx:93-98 | a recommendation is in the size-k bucket exactly when it is in the input with size k |
| PortfolioTypes.GroupBySize | frontend/components/portfolio/usePortfolioData.tsx:92-99 | the push loop yields, for each valid size, the input's recommendations of that size in input order |
| PortfolioTypes.ValidSizeRecords | frontend/components/portfolio/usePortfolioData.tsx:94-97 | only recommendations of a valid size survive |
| PortfolioTypes.BucketLengthsSum | frontend/components/portfolio/usePortfolioData.tsx:93-98 | the three buckets together hold exactly the recommendations of a valid size; invalid sizes are dropped |
| PortfolioData.PortfolioDataHook.constructor | frontend/components/portfolio/usePortfolioData.tsx:24-33 | empty groups, no dates, no selection, loading, no error |
| PortfolioData.PortfolioDataHook.OnFiltersChanged | frontend/components/portfolio/usePortfolioData.tsx:36-68 | valid filters start a dates request with dates and selection reset; invalid ones clear groups, dates, selection, error and loading |
| PortfolioData.PortfolioDataHook.OnDatesLoaded | frontend/components/portfolio/usePortfolioData.tsx:44-54 | dates become the newest-first sort; a non-empty list selects its newest date; an empty one clears the groups and ends loading |
| PortfolioData.PortfolioDataHook.OnDatesFailed | frontend/components/portfolio/usePortfolioData.tsx:55-59 | the dates error is set and loading ends |
| PortfolioData.PortfolioDataHook.SelectDate | frontend/components/portfolio/usePortfolioData.tsx:113-119 | the exposed setter sets the selection |
| PortfolioData.PortfolioDataHook.BeginRecommendationsFetch | frontend/components/portfolio/usePortfolioData.tsx:71-83 | a request only with a selection and truthy filters; otherwise groups cleared and loading off |
| PortfolioData.PortfolioDataHook.OnRecommendationsLoaded | frontend/components/portfolio/usePortfolioData.tsx:85-107 | groups become the grouping by size of the response; loading ends |
| PortfolioData.PortfolioDataHook.OnRecommendationsFailed | frontend/components/portfolio/usePortfolioData.tsx:101-107 | the recommendations error is set, groups cleared, loading ends |
| PortfolioPage.ShouldRedirect | frontend/app/product/portfolio/page.tsx:192-197 | no redirect without query parameters; with some, redirect exactly when the filters are not valid |
| PortfolioPage.FetchOnlyWithoutRedirect | frontend/app/product/portfolio/page.tsx:192-226 | whenever the dates fetch runs (valid filters) the page does not redirect |
| PortfolioPage.ContentAsWritten | frontend/app/product/portfolio/page.tsx:268-270 | the header lookup as written: default content for a falsy horizon, the configured content for a known one, an empty header for a name every object inherits (such as `constructor`), a TypeError for any other truthy horizon |
| PortfolioPage.InvalidHorizonThrows | frontend/app/product/portfolio/page.tsx:189-270 | with `risk=medium&horizon=weekly` the page both must redirect and throws while rendering the header |
| PortfolioPage.PageContent | frontend/app/product/portfolio/page.tsx:168-173 | the corrected header: the configured content for a known horizon, the default content otherwise |
| PortfolioPage.PageContentAgrees | frontend/app/product/portfolio/page.tsx:268-270 | wherever the lookup as written succeeds on a key of the config or the default it agrees with the corrected one; an inherited name gives an empty header where the corrected one gives the default; the lookup succeeds for every valid horizon |
| PortfolioPage.InheritedHorizonRendersEmpty | frontend/app/product/portfolio/page.tsx:192-270 | with `risk=medium&horizon=constructor` the page must redirect and renders an empty header without throwing |
| PortfolioPage.PortfolioPageState.constructor | frontend/app/product/portfolio/page.tsx:175-190 | the page reads its filters from the query; empty groups, no dates, loading |
| PortfolioPage.PortfolioPageState.BeginDatesFetch | frontend/app/product/portfolio/page.tsx:199-205 | valid filters start a dates request (loading, error cleared, dates emptied, selection kept); invalid ones change nothing |
| PortfolioPage.PortfolioPageState.OnDatesLoaded | frontend/app/product/portfolio/page.tsx:208-219 | dates become the newest-first sort; the newest is selected, or the selection and groups are cleared and loading ends |
| PortfolioPage.PortfolioPageState.OnDatesFailed | frontend/app/product/portfolio/page.tsx:220-224 | the dates error is set and loading ends |
| PortfolioPage.PortfolioPageState.SelectDate | frontend/app/product/portfolio/page.tsx:286-288 | the picker sets the selection |
| PortfolioPage.PortfolioPageState.BeginRecommendationsFetch | frontend/app/product/portfolio/page.tsx:228-243 | a request for the selected date and the current filters exactly when there is a selection and both filters are truthy; otherwise nothing changes |
| PortfolioPage.PortfolioPageState.OnParamsChanged | frontend/app/product/portfolio/page.tsx:186-266 | a navigation sets the query and runs the redirect check; when risk or horizon changed the dates request starts for valid filters and, with the selection kept, the recommendations request asks for the old selected date under the new filters |
| PortfolioPage.HorizonSwitchKeepsSelectedDate | frontend/app/product/portfolio/page.tsx:199-266 | switching month to year with date 20 selected requests date 20 under horizon year |
| PortfolioPage.PortfolioPageState.OnRecommendationsLoaded | frontend/app/product/portfolio/page.tsx:239-262 | groups become the grouping by size of the response; loading ends |
| PortfolioPage.PortfolioPageState.OnRecommendationsFailed | frontend/app/product/portfolio/page.tsx:256-262 | the recommendations error is set, groups cleared, loading ends |
| PortfolioPage.PortfolioPageState.ViewAsWritten | frontend/app/product/portfolio/page.tsx:268-322 | every render throws exactly when the header lookup as written throws, whatever the loading state; otherwise it shows what `View` shows, with the header as written |
| PortfolioPage.PortfolioPageState.View | frontend/app/product/portfolio/page.tsx:291-322 | the corrected page: loading, then error, then "no dates" take precedence in that order; otherwise the corrected header content and one table per size 3, 5, 8 holding that size's group |
| PortfolioHeader.DisplayOptions | frontend/components/portfolio/PortfolioHeader.tsx:85-90 | all options normally; only "medium" (risk) or "month" (horizon) once the limit is reached |
| PortfolioHeader.LimitLeavesFreeCombination | frontend/components/portfolio/PortfolioHeader.tsx:85-90 | at the limit the menus offer exactly medium and month, both valid filters |
| PortfolioHeader.PortfolioUrl | frontend/components/portfolio/PortfolioHeader.tsx:54-57 | the rotations link carries risk and horizon when both are truthy, and is bare otherwise |
| PortfolioHeader.Header.constructor | frontend/components/portfolio/PortfolioHeader.tsx:37-42 | the limit flag defaults to false; no menu is open |
| PortfolioHeader.Header.ClickLabel | frontend/components/portfolio/PortfolioHeader.tsx:83-95 | clicking a menu's label closes it if it was open and otherwise opens it (closing the other) |
| PortfolioHeader.Header.ClickOutside | frontend/components/portfolio/PortfolioHeader.tsx:59-68 | a click outside closes the open menu |
| PortfolioHeader.Header.HandleChange | frontend/components/portfolio/PortfolioHeader.tsx:70-75 | navigates to /product/portfolio with the chosen parameter set to the value and all other parameters kept; the menu closes |
| PortfolioHeader.Header.RenderDropdown | frontend/components/portfolio/PortfolioHeader.tsx:77-129 | the caption is the current value or "N/A"; items exactly when this menu is open, one per displayed option, marked current exactly when equal to the current value |
| DashboardPage.MatrixIsProduct | frontend/app/dashboard/page.tsx:104-117 | the nine cards are the risk × horizon product, row by row, with no repeated pair |
| DashboardPage.IsFreeAccess | frontend/app/dashboard/page.tsx:131 | of the nine cards, exactly the Medium / 2-4 Weeks one is free access |
| DashboardPage.IsLocked | frontend/app/dashboard/page.tsx:132 | a card is locked for tier "FREE" unless it is free access, and for no other tier |
| DashboardPage.OnlyOneExemptCard | frontend/app/dashboard/page.tsx:131 | exactly one card, Medium / 2-4 Weeks, is free access |
| DashboardPage.LockedCards | frontend/app/dashboard/page.tsx:131-132 | for tier "FREE" every card but the exempt one is locked; for any other tier none is |
| DashboardPage.CardLinks | frontend/app/dashboard/page.tsx:141-144 | two links, Sector Rotation and Portfolio, carrying the card's risk and horizon in the query |
| DashboardPage.DisplayedHrefs | frontend/app/dashboard/page.tsx:57-58 | a locked card's links all lead to /upgrade; an unlocked card keeps its hrefs |
| DashboardPage.ViewAsWritten | frontend/app/dashboard/page.tsx:80-147 | "Authenticating" while loading, "Access Denied" without a user, otherwise a ReferenceError for the undeclared `userTier` |
| DashboardPage.ViewAsWrittenAgrees | frontend/app/dashboard/page.tsx:80-147 | for any tier, the page as written matches the intended one wherever it renders, and throws exactly where the intended one shows the grid |
| DashboardPage.SignedInDashboardThrows | frontend/app/dashboard/page.tsx:128-132 | a signed-in user with settled auth gets the error, where the intended page shows the grid |
| DashboardPage.View | frontend/app/dashboard/page.tsx:84-147 | the intended page: "Authenticating" while loading, "Access Denied" without a user, otherwise the nine cards with their lock state for the given tier and their displayed links |
| DashboardPage.FreeUserLockedCards | frontend/app/dashboard/page.tsx:128-144 | on the intended page, a FREE user's locked cards both lead to /upgrade |
| DashboardPage.FreeUserExemptCard | frontend/app/dashboard/page.tsx:128-144 | on the intended page, a FREE user's Medium / 2-4 Weeks card keeps its two real links |
| FaqPage.Remove | frontend/app/faq/page.tsx:60 | the question is gone, every other question keeps its membership, duplicates are not introduced |
| FaqPage.ToggleItem | frontend/app/faq/page.tsx:57-63 | an open question is closed; a closed one is appended; other questions keep their state |
| FaqPage.RemoveAppended | frontend/app/faq/page.tsx:57-63 | removing a just-appended question restores the list |
| FaqPage.ToggleTwice | frontend/app/faq/page.tsx:57-63 | toggling a closed question twice restores the open list |
| FaqPage.Matches | frontend/app/faq/page.tsx:104-107 | a FAQ matches when its lower-cased question or answer contains the lower-cased term; the empty term matches every FAQ |
| FaqPage.FilterFaqs | frontend/app/faq/page.tsx:104-107 | exactly the FAQs whose question or answer contains the term case-insensitively, each as often as in the input, in their original order |
| FaqPage.EmptyTermKeepsAll | frontend/app/faq/page.tsx:104-107 | the empty search shows every FAQ |
| FaqPage.View | frontend/app/faq/page.tsx:131-145 | "No results" exactly when the filter is empty; otherwise one item per match, open exactly when its question is in the open list |
| LoginPage.PreValidate | frontend/app/login/page.tsx:44-57 | login never fails validation; registration fails on mismatched passwords first, then on any missing consent, and passes otherwise |
| LoginPage.AuthErrorMessage | frontend/app/login/page.tsx:79-90 | the four known provider codes get their messages, every other code the generic one |
| LoginPage.SignupDisabled | frontend/app/login/page.tsx:96-97 | the button is disabled while loading and, otherwise, exactly when pre-validation would fail |
| LoginPage.NewUserDoc | frontend/app/login/page.tsx:66-73 | the new user's document carries the email, tier "FREE" and all three consents |
| LoginPage.LoginForm.constructor | frontend/app/login/page.tsx:25-36 | login mode, empty fields, no consents, not loading |
| LoginPage.LoginForm.OnSearchParams | frontend/app/login/page.tsx:38-42 | `register=true` switches to register mode; any other query leaves the mode |
| LoginPage.LoginForm.ToggleMode | frontend/app/login/page.tsx:251-258 | flips the mode and clears the error, the confirmation and the consents |
| LoginPage.LoginForm.HandleAuth | frontend/app/login/page.tsx:44-94 | a validation failure sets its message without calling the provider or touching loading; otherwise a provider or write error sets its message and success goes to /dashboard (writing the user document when registering); loading ends |
| SignupPage.SignupErrorMessage | frontend/app/signup/page.tsx:38-42 | the email-in-use code gets its message, everything else the generic one |
| SignupPage.SignupForm.constructor | frontend/app/signup/page.tsx:11-14 | empty fields, no error, not loading |
| SignupPage.SignupForm.HandleSignup | frontend/app/signup/page.tsx:17-45 | a password shorter than 6 sets the length error without an attempt; success goes to /dashboard with loading left on; failure sets the mapped message and ends loading |
| Navbar.IsActive | frontend/components/Navbar.tsx:23-25 | a link is active when the path is the link itself, or the link followed by `?` and anything |
| Navbar.SubPathNotActive | frontend/components/Navbar.tsx:23-25 | a path below a link that is not a query on it does not mark the link active |
| Navbar.QueryIsActive | frontend/components/Navbar.tsx:25 | a query on the link's own path marks it active |
| Navbar.ShouldFetchProfile | frontend/components/Navbar.tsx:60 | the profile is requested only with a signed-in user once authentication has settled |
| Navbar.DisplayEmail | frontend/components/Navbar.tsx:156 | the profile's email when non-empty, otherwise the signed-in user's email |
| Navbar.TierBadge | frontend/components/Navbar.tsx:170 | the profile's tier when non-empty, otherwise "Free" |
| Navbar.IsProStyle | frontend/components/Navbar.tsx:166-170 | the emerald Pro colouring appears exactly when the badge reads "Pro" |
| Navbar.BackendTierNeverProStyled | frontend/components/Navbar.tsx:166-170 | a profile with tier "FREE" or "PRO" never gets the Pro colouring and shows its tier verbatim |
| Navbar.NavbarState.constructor | frontend/components/Navbar.tsx:46-48 | both menus closed, no profile |
| Navbar.NavbarState.ToggleUserMenu | frontend/components/Navbar.tsx:149 | the account button toggles the account menu |
| Navbar.NavbarState.ToggleMobileMenu | frontend/components/Navbar.tsx:215 | the burger toggles the mobile menu |
| Navbar.NavbarState.OnRouteChange | frontend/components/Navbar.tsx:54-56 | a route change closes the mobile menu and touches nothing else |
| Navbar.NavbarState.ClickOutside | frontend/components/Navbar.tsx:76-87 | each menu closes when the click is outside it and keeps its state otherwise |
| Navbar.NavbarState.ProfileEffect | frontend/components/Navbar.tsx:59-65 | the profile is requested exactly with a user and settled auth; a response replaces the profile, a failure keeps it |
| Navbar.NavbarState.HandleLogout | frontend/components/Navbar.tsx:67-73 | after a successful sign-out both menus close, the profile is cleared and the app navigates to /; a rejected sign-out changes nothing and navigates nowhere |
| LandingPage.GetRegime | frontend/app/page.tsx:50-62 | Neutral→Leading, Bullish→Improving, Bearish→Weakening, anything else→Lagging, each in both directions; the result always names a style |
| LandingPage.BackendSignalsRegimes | frontend/app/page.tsx:50-55 | the back end's Overweight and Underweight map to Lagging and its Neutral to Leading |
| LandingPage.FormatDate | frontend/app/page.tsx:36-45 | "N/A" for a missing or empty date, otherwise the formatted date |
| LandingPage.PreviewRows | frontend/app/page.tsx:352 | exactly the recommendations of portfolio size 5 |
| LandingPage.HeroSectors | frontend/app/page.tsx:134 | a prefix of the shuffled data of at most four records |
| LandingPage.HeroSectorsFromData | frontend/app/page.tsx:134 | for any permutation, min(4, \|data\|) cards, all drawn from the data |
| LandingPage.LandingState.constructor | frontend/app/page.tsx:96-102 | empty lists, no dates, loading, no error |
| LandingPage.LandingState.FetchPublicData | frontend/app/page.tsx:104-132 | on success missing lists default to empty and the portfolio date is the first item's date when there is one (kept otherwise); on failure the error is set and the data kept; loading ends |
| AuthContext.Step | frontend/context/AuthContext.tsx:22-25 | a callback sets the user to the reported one and ends loading |
| AuthContext.ReplayLoading | frontend/context/AuthContext.tsx:17-25 | after a series of callbacks loading holds exactly when it held before and there were none |
| AuthContext.ReplayUser | frontend/context/AuthContext.tsx:22-25 | after at least one callback the user is the one the latest callback reported |
| AuthContext.LoadingNeverReturns | frontend/context/AuthContext.tsx:22-25 | once loading is false no callback sets it back |
| AuthContext.ChildrenAfterFirstCallback | frontend/context/AuthContext.tsx:14-31 | from the initial state (no user, loading) children render exactly after the first callback |
| AuthContext.AuthProvider.constructor | frontend/context/AuthContext.tsx:17-18 | no user, loading, no callbacks yet |
| AuthContext.AuthProvider.OnAuthStateChanged | frontend/context/AuthContext.tsx:22-25 | the state stays the replay of all callbacks received; user is the reported one and loading is false |
| DashboardApi.CalculateSignal | backend/app/main.py:72-78 | Overweight exactly for rank ≤ 30, Underweight exactly for rank ≥ 85, Neutral exactly for 31..84; always one of the three |
| DashboardApi.SignalMonotone | backend/app/main.py:72-78 | a better (lower) rank never gets a weaker signal |
| DashboardApi.GetDashboardData | backend/app/main.py:57-120 | 404 exactly for an empty query result; otherwise one record per row in query order, signal computed from rank, extended fields present exactly for PRO |
| DashboardApi.Record | backend/app/main.py:80-120 | a record carries the row's rank, sector and computed signal, and the extended fields exactly for PRO |
| DashboardApi.FreeIsProWithoutDetails | backend/app/main.py:100-120 | the FREE response has as many records as the PRO one, each equal to it without the extended fields |
| UserModels.TierName | backend/app/db/models.py:10-12 | FREE is stored as "FREE" and PRO as "PRO", and only so |
| CurrentUser.FindByUid | backend/app/api/v1/deps.py:30-31 | a row with the uid from the table, or none exactly when no row has it |
| CurrentUser.GetOrCreate | backend/app/api/v1/deps.py:18-44 | a rejected token gives 401 with a Bearer challenge; a token without a uid gives 500 and changes nothing; a known uid returns its row and inserts nothing; an unknown uid inserts exactly one FREE row with the uid and email, or fails with 500 when the email is missing or taken; a returned user always has the token's uid; errors leave the table unchanged |
| CurrentUser.GetOrCreateKeepsValid | backend/app/api/v1/deps.py:35-42 | a call keeps ids, uids and emails unique |
| CurrentUser.GetOrCreateIdempotent | backend/app/api/v1/deps.py:27-44 | a second call with the same token returns the same result and inserts nothing |
| CurrentUser.UsersTable.GetCurrentUser | backend/app/api/v1/deps.py:18-44 | the lookup-then-insert method computes exactly the get-or-create outcome and keeps the table valid |

## Left out

- Network and SDK calls are not modelled. These are axios requests, the identity provider's client and admin SDK, Firestore writes and SQLAlchemy sessions. Their answers are inputs to the methods.
- Asynchrony is not modelled. Each effect is split into a "begin" and a "complete" method. Races between overlapping requests are not captured, for example a stale response arriving after a newer selection, or the response for the old date that `OnParamsChanged` requests arriving after the new dates.
- Locale formatting is a function parameter, not modelled. This covers `toFixed`, `toLocaleDateString` and `toISOString().split('T')[0]`.
- Floating-point scores are modelled as exact reals.
- The random shuffle of the hero cards is an input. Only the "at most four, drawn from data" bound is proved.
- Markup, icons, CSS transitions and the static pages are not part of this model. The static pages are pricing, terms, privacy, disclaimer, about, methodology, contact, the older rotations and portfolio pages, the layout, the footer and the presentational portfolio components.
- `backend/jobs/run_weekly_analysis.py` (a seeding script) and `backend/app/schemas/dashboard.py` are not part of this model.
- The FAQ's fixed question list and the display-only recommendation columns (prices, tactics, notes) are not modelled.
- Usage quotas are not modelled, beyond the `isLimitReached` flag the header receives.
- FaqPage.FilterFaqs: lower-casing covers the ASCII letters only, so non-ASCII case folding is not modelled.
- SignupPage.SignupForm.HandleSignup: the password length counts characters, not UTF-16 code units.
- DashboardApi.GetDashboardData:
  - The database's ordering (date descending, then rank ascending) is the order of the input rows. It is not re-proved.
  - Null score or extended columns, which would fail response validation, are not modelled.
  - The response records carry the ISO date through the `isoformat` parameter.
- CurrentUser.GetOrCreate:
  - A failed insert's 500 is modelled with a fixed detail.
  - The id sequence does not advance on a failed insert.
  - A decoded token that is present but empty is treated like an accepted token.
- SectorRow.SignalClasses: the style table is treated as having only its own keys. A signal that names a member every object inherits, such as `constructor`, finds a function in the source, not the fallback; the model gives the fallback. The back end never sends such a signal (`SectorRow.BackendSignalsStyled`).
- PortfolioPage.PortfolioPageState.View: renders the corrected header (`PageContent`). The page as written throws on every render for a horizon it cannot look up, even while loading; `ViewAsWritten` models that.
- DashboardPage.View: the `tier` parameter stands for a value the page as written never defines; `ViewAsWritten` models the page as written.
- PortfolioPage.PortfolioPageState.OnParamsChanged: the effects' dependency comparison is modelled as a comparison of the risk and horizon values; the router's own identity is not modelled.
- PortfolioData.PortfolioDataHook.OnFiltersChanged: the hook's parameters are modelled as a method call, not as React's dependency comparison.
- LoginPage.LoginForm.HandleAuth: the `createdAt` server timestamp of the user document is not modelled. Errors without a code fall into the generic message, like any unknown code.

## Findings

| source | as written | input that shows it | evidently intended | confidence | as-written member | corrected member |
|---|---|---|---|---|---|---|
| frontend/app/product/portfolio/page.tsx:269-270 | the header reads `contentConfig[horizon].title` for any truthy horizon, before the redirect effect for invalid parameters can run | query `risk=medium&horizon=weekly`: the lookup yields undefined and reading `.title` throws during render (an inherited name such as `constructor` instead renders an empty header) | an unknown horizon falls back to the default title and description while the page redirects | high, not executed | PortfolioPage.ContentAsWritten | PortfolioPage.PageContent |
| frontend/app/dashboard/page.tsx:132 | the lock test reads `userTier`, which the component never declares; it takes only `user` and `loading` from the auth context (a type-checked build reports the name as undefined too) | any signed-in user once authentication has settled: the first card's lock test throws a ReferenceError, so no card is shown | the lock test reads the signed-in user's tier, locking every card but Medium / 2-4 Weeks for FREE | high, not executed | DashboardPage.ViewAsWritten | DashboardPage.View |

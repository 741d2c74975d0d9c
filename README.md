# RNM Server landing page — a Dafny model of its component logic

The site is a single promotional page for a GTA 5 roleplay server. Almost all
of it is markup and styling. This project models the few pieces that carry
behaviour and proves what they promise:

- **ErrorBoundary** (`error_boundary.dfy`). The boundary sits around the page. It catches a render failure and
  gives it an id `ERR_<time>_<random>`. It then shows the caller's fallback
  or a recovery card. The card classifies the message as a network, chunk-load
  or generic failure. The user may retry in place up to three times; the
  `retryCount` field outlives each retry. The boundary is a class whose
  fields are the React state, the counter and the calls made to `onError`;
  the state machine is also given as pure `Step`/`Run` functions.
- **Header** (`header.dfy`). It holds the mobile menu, the body scroll-lock
  effect, the "scrolled" style (`scrollY > 50`), anchor navigation and the
  mocked player count. Its class invariant says the body's `overflow` is
  `"hidden"` exactly while the menu is open. Every handler keeps it, so it
  holds after any sequence of clicks.
- **Hero** and **Community** (`hero.dfy`, `community.dfy`). Each has mocked
  live stats that a 30-second timer refreshes. A random draw
  `Math.floor(Math.random() * k)` is a parameter `r` with `0 <= r < k`. The
  Hero tick replaces its values; the Community tick adds to them. Both files
  also hold the derived views: stat texts, status badge, recent-activity
  slice, star count and the percent-full badge.
- **Features** (`features.dfy`). It groups the features by category. It
  proves that the grouping is a partition that keeps the list's order.
- **Button** (`button.dfy`). It chooses between anchor and button, resolves
  the defaults, works out disabled and animation flags, and places the
  spinner or icon.
- **Footer** (`footer.dfy`). It holds anchor navigation and the legal-links
  row with a bullet between neighbouring links.
- Shared helpers: `options.dfy` (`Option`), `strings.dfy` (`startsWith`,
  `includes` with a proof against a reference meaning, decimal rendering
  with its parse-back) and `dom.dfy`. The `Document` class in `dom.dfy` has
  the set of element ids, the body's `overflow` style and a log of
  `scrollIntoView` calls.

Where the code and its own comments differ, the model follows the code:

- The Hero tick gives 120..127 players and a 35..54 ms ping
  (`src/components/sections/Hero.tsx:97-98`). The comments on those lines say
  120-128 and 35-55; `Math.floor(Math.random() * k)` never reaches `k`.
- The Community tick adds its draws to the previous counts
  (`src/components/sections/Community.tsx:256-257`). The Hero and Header
  ticks (`src/components/sections/Hero.tsx:95-99`,
  `src/components/layout/Header.tsx:50-53`) replace the previous value.
- A retry clears `errorId` to `''`. A new failure then gets a new id.

Only three elements of the page carry an id: `home`
(`src/components/sections/Hero.tsx:120`), `features` and `community`. So the
header's Gallery, Rules and Contact entries, every footer quick link and the
hero's "Watch Trailer" button find no target and scroll nothing.

## Model

| member | source | states |
|---|---|---|
| ErrorBoundary.ErrorId | src/components/common/ErrorBoundary.tsx:33 | the tracking id begins with `ERR_` |
| ErrorBoundary.ErrorIdInjective | src/components/common/ErrorBoundary.tsx:33 | equal ids imply equal clock readings and equal random suffixes, so failures that differ in either get different ids |
| ErrorBoundary.DerivedStateFromError | src/components/common/ErrorBoundary.tsx:31-41 | catching sets `hasError`, stores the error, clears `errorInfo` and sets an id beginning with `ERR_` |
| ErrorBoundary.AfterDidCatch | src/components/common/ErrorBoundary.tsx:43-47 | `componentDidCatch` records error and `errorInfo` and keeps `hasError` and the id |
| ErrorBoundary.Retry | src/components/common/ErrorBoundary.tsx:83-93 | below the cap a retry adds exactly one to the counter and returns to the healthy state; at the cap it changes nothing |
| ErrorBoundary.Step | src/components/common/ErrorBoundary.tsx:31-59 | a failure leaves the counter alone and fails the boundary; every event keeps the invariant |
| ErrorBoundary.RunKeepsValid | src/components/common/ErrorBoundary.tsx:21-29 | over any sequence of failures and retries the counter stays in 0..3 and the state stays well formed |
| ErrorBoundary.RunRetryCount | src/components/common/ErrorBoundary.tsx:83-93 | after any sequence the counter is the number of retry clicks capped at 3, so it never decreases and never passes 3 |
| ErrorBoundary.FailRetryCycles | src/components/common/ErrorBoundary.tsx:83-93 | with repeated fail-then-retry cycles only the first three retries recover; after that the boundary stays failed |
| ErrorBoundary.StaysFailedAtCap | src/components/common/ErrorBoundary.tsx:84-92 | once the counter is at 3, further failures and retries leave the boundary failed |
| ErrorBoundary.IsNetworkError | src/components/common/ErrorBoundary.tsx:127-128 | a network failure is detected exactly when the message contains `fetch` or `network` |
| ErrorBoundary.IsChunkError | src/components/common/ErrorBoundary.tsx:129 | a chunk failure is detected exactly when the message contains `Loading chunk` |
| ErrorBoundary.ChooseGuidance | src/components/common/ErrorBoundary.tsx:166-171 | the guidance text picks network over chunk over generic |
| ErrorBoundary.RecoveryCardFor | src/components/common/ErrorBoundary.tsx:126-268 | the card shows the id; both badges may show at once; "Try Again" is offered iff `retryCount < 3`; reload and home are always offered; the attempts line appears iff `retryCount > 0`; development details appear iff in development with an error |
| ErrorBoundary.Boundary.constructor | src/components/common/ErrorBoundary.tsx:21-29 | a new boundary is healthy with counter 0 |
| ErrorBoundary.Boundary.GetDerivedStateFromError | src/components/common/ErrorBoundary.tsx:31-41 | the derived state replaces the boundary's state, the counter untouched |
| ErrorBoundary.Boundary.ComponentDidCatch | src/components/common/ErrorBoundary.tsx:43-59 | records `errorInfo`, calls `onError` only when supplied, never changes the counter |
| ErrorBoundary.Boundary.Catch | src/components/common/ErrorBoundary.tsx:31-59 | one failure runs both lifecycle steps, as `Step` describes |
| ErrorBoundary.Boundary.HandleRetry | src/components/common/ErrorBoundary.tsx:83-93 | the method does what `Retry` describes and keeps the invariant |
| ErrorBoundary.Boundary.Render | src/components/common/ErrorBoundary.tsx:120-125 | failed with a fallback shows the fallback; failed without one shows the recovery card; healthy shows the children unchanged |
| Strings.IncludesIsOccurs | src/components/common/ErrorBoundary.tsx:127-129 | the scan used for `includes` is true exactly when the text occurs at some position |
| Strings.NatToString | src/components/sections/Hero.tsx:32 | a rendered number is a non-empty run of digits with no leading zero |
| Strings.ParseNatToString | src/components/sections/Hero.tsx:32 | reading a rendered number back gives the number |
| Strings.RatioTextInjective | src/components/sections/Hero.tsx:32 | the `count/capacity` text determines both numbers |
| Dom.Document.QuerySelector | src/components/layout/Header.tsx:63 | `#id` finds an element exactly when that id exists |
| Dom.Document.AnchorTarget | src/components/layout/Header.tsx:62-64 | an href resolves iff it starts with `#` and names an existing element |
| Dom.Document.ScrollIntoView | src/components/layout/Header.tsx:65-68 | each call appends one smooth scroll to the log |
| Header.PlayerTick | src/components/layout/Header.tsx:49-54 | a tick puts the count in 124..128 and keeps `isOnline` and `maxPlayers` |
| Header.PlayerTickReaches | src/components/layout/Header.tsx:52 | every count in 124..128 can result, so the range is exact |
| Header.NavigationTargets | src/components/layout/Header.tsx:19-26 | with the page's section ids, a nav entry scrolls somewhere iff it is Home, Features or Community |
| Header.ScrollLock | src/components/layout/Header.tsx:78-84 | the effect writes `hidden` iff the menu is open and `unset` otherwise |
| Header.HeaderState.constructor | src/components/layout/Header.tsx:29-35 | mounting starts closed, not scrolled, 127/128 online, and the first effect run leaves the body `unset` |
| Header.HeaderState.SetMenuOpen | src/components/layout/Header.tsx:78-88 | a state change reruns the effect, so the body's overflow is `hidden` iff the menu is open |
| Header.HeaderState.ToggleMenu | src/components/layout/Header.tsx:73-75 | toggling flips the menu and keeps the scroll-lock invariant |
| Header.HeaderState.CloseMenu | src/components/layout/Header.tsx:193 | the backdrop click closes the menu and keeps the scroll-lock invariant |
| Header.HeaderState.HandleNavClick | src/components/layout/Header.tsx:59-71 | a nav click always closes the menu and scrolls smoothly to the start of the target iff the href is `#id` of an existing element |
| Header.HeaderState.HandleScroll | src/components/layout/Header.tsx:39-41 | `isScrolled` is `scrollY > 50`, strictly |
| Header.HeaderState.Tick | src/components/layout/Header.tsx:49-54 | the interval callback applies `PlayerTick` |
| Header.HeaderState.Unmount | src/components/layout/Header.tsx:85-87 | cleanup leaves the body `unset` |
| Header.HeaderState.View | src/components/layout/Header.tsx:96-101 | the solid bar follows `isScrolled`; the close icon, backdrop and mobile menu appear iff the menu is open; the badges follow `isOnline` and show `count/capacity` |
| Hero.NextStats | src/components/sections/Hero.tsx:95-99 | a tick puts the count in 120..127 and the ping in 35..54 and keeps capacity, uptime and online flag |
| Hero.TickDoesNotAccumulate | src/components/sections/Hero.tsx:95-99 | the new count and ping do not depend on the previous ones |
| Hero.TickReaches | src/components/sections/Hero.tsx:97-98 | every value in the two ranges can result, so 128 players and 55 ms never appear |
| Hero.TicksBounded | src/components/sections/Hero.tsx:93-100 | after any number of ticks the fixed fields are the seeded ones and, after at least one, both values are in range |
| Hero.PingText | src/components/sections/Hero.tsx:44 | the ping text ends in `ms` and its digits read back as the ping |
| Hero.StatItems | src/components/sections/Hero.tsx:28-47 | three cards, in order players `count/capacity`, uptime, ping text |
| Hero.StatusBadgeFor | src/components/sections/Hero.tsx:239-251 | online gives `online`/"Server Online", offline gives `offline`/"Server Offline" |
| Hero.HeroSection.constructor | src/components/sections/Hero.tsx:84-90 | the seed is 127/128 players, ping 45, uptime "99.8%", online |
| Hero.HeroSection.Tick | src/components/sections/Hero.tsx:94-100 | the interval callback applies `NextStats` |
| Hero.HeroSection.HandleWatchTrailer | src/components/sections/Hero.tsx:110-116 | scrolls to `gallery` only when it exists, otherwise does nothing |
| Community.NextStats | src/components/sections/Community.tsx:254-258 | a tick moves the online count by -5..4 and the member count by 0..2 and keeps the messages |
| Community.TicksBounds | src/components/sections/Community.tsx:252-259 | after n ticks members grew by 0..2n, online moved by -5n..4n, the messages are unchanged |
| Community.OnlineCountDrifts | src/components/sections/Community.tsx:256-257 | those bounds are reached, so the online count has no fixed range |
| Community.RecentActivity | src/components/sections/Community.tsx:202 | the widget shows the first min(3, n) messages in their order |
| Community.TestimonialHeaderFor | src/components/sections/Community.tsx:125-139 | as many stars as the rating (none if negative); "Verified" iff `verified` |
| Community.PercentFull | src/components/sections/Community.tsx:435 | the badge is the integer nearest to 100·participants/capacity, halves rounded up |
| Community.FixturePercents | src/components/sections/Community.tsx:78-103 | every upcoming event has a positive capacity, and the three badges read 73, 78 and 70 percent full |
| Community.CommunitySection.constructor | src/components/sections/Community.tsx:229-249 | the seed is 5247 members, 892 online and the three messages, each stamped by its own clock reading |
| Community.CommunitySection.Tick | src/components/sections/Community.tsx:253-259 | the interval callback applies `NextStats` |
| Community.CommunitySection.LearnMore | src/components/sections/Community.tsx:475-478 | scrolls to `features` only when it exists |
| Features.CategoryTablesInjective | src/components/sections/Features.tsx:111-121 | label and colour are total in the category and tell categories apart |
| Features.Filter | src/components/sections/Features.tsx:196-198 | a group only holds features of its category and is no longer than the list |
| Features.FilterMultiplicity | src/components/sections/Features.tsx:195-199 | a group holds each feature of its category as often as the list does, and nothing else |
| Features.FilterMembers | src/components/sections/Features.tsx:195-199 | a feature is in a group iff it is in the list with that category |
| Features.FilterAppend | src/components/sections/Features.tsx:196-198 | grouping keeps the list's relative order |
| Features.Partition | src/components/sections/Features.tsx:195-199 | group sizes sum to the list length and the groups together are the list as a multiset |
| Features.FilterAll | src/components/sections/Features.tsx:196-198 | a list of one category is its own group |
| Features.FilterNone | src/components/sections/Features.tsx:196-198 | a list without a category gives that category an empty group |
| Features.ThreeRuns | src/components/sections/Features.tsx:195-199 | a roleplay run, then a community run, then a technical run group into exactly those runs |
| Features.FixtureGroups | src/components/sections/Features.tsx:33-109 | the nine features group as the first, middle and last three, each in list order |
| Features.CategorizedFeatures | src/components/sections/Features.tsx:195-199 | groups come in the order roleplay, community, technical, each under its label |
| Features.FeatureCardFor | src/components/sections/Features.tsx:123-161 | the "Popular" badge and ring appear iff `highlight`; icon and badge take the category colour and label |
| Button.WithDefaults | src/components/ui/button.tsx:53-67 | the defaults: not loading, icon left, not external, no glow, enabled |
| Button.ResolvedVariant | src/components/ui/button.tsx:33-36 | the default variant is primary |
| Button.ResolvedSize | src/components/ui/button.tsx:33-36 | the default size is md |
| Button.Content | src/components/ui/button.tsx:70-97 | the spinner shows iff loading; otherwise the icon sits on the side `iconPosition` names |
| Button.ContentIconCount | src/components/ui/button.tsx:93-95 | the icon appears once when not loading and given, never on both sides, never while loading |
| Button.Render | src/components/ui/button.tsx:99-135 | an anchor iff `href` is non-empty, with `_blank` and `noopener noreferrer` iff `external`; a button is disabled iff `disabled` or `loading`, and animates iff neither; glow adds the pulse in both modes |
| Button.AnchorIgnoresDisabled | src/components/ui/button.tsx:99-117 | in anchor mode `disabled` changes nothing |
| Footer.HandleNavClick | src/components/layout/Footer.tsx:69-79 | scrolls to the start of the target iff the href is `#id` of an existing element; an href not starting with `#` does nothing; no other state is touched |
| Footer.QuickLinksTargets | src/components/layout/Footer.tsx:52-57 | every quick link is an in-page anchor, and with the page's section ids none of them finds a target |
| Footer.ItemsFromIsJoined | src/components/layout/Footer.tsx:279-291 | the index rule renders the links joined by bullets |
| Footer.JoinedShape | src/components/layout/Footer.tsx:279-291 | n links joined give 2n-1 items, n-1 bullets, and end with the last link |
| Footer.LegalRowShape | src/components/layout/Footer.tsx:279-291 | the legal row has exactly n-1 bullets and none after the last link |
| Footer.LegalLinksRow | src/components/layout/Footer.tsx:59-64 | the four legal links render as seven items with three bullets, from "Terms of Service" to "DMCA Policy" |

## Left out

- I/O and foreign calls are not modelled: `console`, `logErrorToService`, `navigator.clipboard` (`copyErrorDetails`), `window.location.reload` (`handleReload`), `window.location.href = '/'` (`handleGoHome`), `window.open` (`handleJoinServer`).
- Timer and listener lifetimes (`setInterval`, `clearInterval`, `addEventListener`, `removeEventListener`) are event-loop scheduling. Only the callbacks are modelled, as methods.
- Random numbers and the clock are parameters: each draw is an integer in its range, `Date.now()` is a `nat`, and the id's random suffix is any string.
- ErrorBoundary.ErrorIdInjective: this does not prove that ids are unique over time. That would need clock and random behaviour the model does not have.
- React scheduling is simplified. Each `setState` applies at once, and the scroll-lock effect reruns at once when its dependency changes. Batching and the order of commit phases are not modelled.
- A failure that arrives while the boundary is already failed is applied like any other. In React the failed boundary does not render its children, so this does not happen.
- Animations (framer-motion variants, stagger delays) and style tables (`card.tsx`, `badge.tsx`, the cva and `twMerge` class merging, `className`) are left out. `asChild`, `ref` and the spread of other props are left out too.
- Strings.NatToString: it does not model JavaScript's exponent notation for numbers of 10^21 and above. No value here comes near that.
- Community.PercentFull: it computes with exact rationals and not floating point. It requires `maxParticipants > 0`; the source would show NaN or Infinity for a zero capacity.
- Dom.Document.QuerySelector: only the `#id` form is modelled. A selector the browser rejects (`#` alone, an id starting with a digit) throws there; the model reports no element instead.
- Falsy React nodes (`null`, `false`, `""`, `0`) given as fallback or icon are `None`. A node's own content is not modelled.
- Button.Content: an `icon` of `0` is treated as no icon. In the source, `!loading && icon && ...` evaluates to `0` there, and React prints "0" on both sides of the children whenever the button is not loading.
- ErrorBoundary.DerivedStateFromError: only thrown `Error` values, each with a string `message`, are modelled. React hands the boundary whatever was thrown. A thrown string or an object without `message` makes `error?.message.includes(...)` throw inside the boundary's own render (`src/components/common/ErrorBoundary.tsx:127-129`). A thrown `null` leaves `hasError` true with no error, which `ValidSnapshot` rules out, and `logErrorToService` then throws on `error.message` (`src/components/common/ErrorBoundary.tsx:65`). The boundary is the page root, so either case blanks the page.
- `toLocaleString`, `toLocaleDateString` and `getFullYear` are date and locale formatting, and are left out.
- Static markup is left out: the social links, the avatar glyphs and the desktop and mobile nav lists. The nav list is kept only as data.
- Header.HeaderState.View: it keeps the text `count/capacity` as one string. React renders it as adjacent text nodes.

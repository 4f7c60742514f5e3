# College society dashboard: sidebar, layout and list filters in Dafny

This project models the small amount of logic in a client-side dashboard for
college societies and events. Everything else in the dashboard is rendering.

- **`useSidebar` hook** (`sidebar_hook.dfy`, module `SidebarHook`). The hook
  has a `collapsed` preference. It is read once from the local-storage slot
  `college-society-sidebar-collapsed` and written back as `"true"`/`"false"`
  on every `toggle` and `setCollapsed`. It also has an `isMobile` flag that a
  `(max-width: 768px)` media query drives. The pure specification is
  `Snapshot`, `Step` and `Run`. The class `Sidebar` is one hook instance, and
  each of its methods is proved against `Step`.
- **`Layout` shell** (`layout.dfy`, module `Layout`). This covers the sidebar
  width (80 or 260), the content area's left margin, and the mobile-menu flag
  with its handlers. It also says when the backdrop, the drawer and the bottom
  navigation are shown. The class `Shell` owns one `Sidebar`.
- **Societies search** (`societies.dfy`). A society is kept when the
  lower-cased query occurs in its lower-cased name or category.
- **Events status filter** (`events.dfy`). The token `"all"` keeps every
  event. Any other token keeps the events whose status is written exactly as
  the token.
- **Event card** (`event_card.dfy`). This covers the capacity fill
  percentage, the three colour tiers and the status badge table.
- **List filter** (`list_filter.dfy`). This is `Array.prototype.filter` as a
  function on sequences. It is proved to keep order (the result is a
  subsequence), membership and multiplicity. Both pages use it.

Three behaviours of the code worth noting:

- The media query is `max-width: 768px`, which is inclusive. So a width of
  exactly 768 counts as mobile.
- The code does not catch storage exceptions. So the store is a total
  in-memory map, and no failure is swallowed.
- The media handler runs once on mount, where the value may stay the same,
  and afterwards only on `change` notifications, which the browser sends
  only when the query's result flips. The model accepts a notification at
  any width. That allows more sequences than a browser produces, and it is
  harmless because setting `isMobile` to its current value changes nothing.

## Model

| member | source | states |
|---|---|---|
| `ListFilter.Filter` | src/pages/Societies.tsx:54-58 | the result is an order-preserving subsequence of the input, no longer than it, containing exactly the input elements the predicate accepts |
| `ListFilter.FilterMultiplicity` | src/pages/Events.tsx:74 | every accepted element occurs in the result as often as in the input, and a rejected one not at all |
| `ListFilter.FilterKeepsAll` | src/pages/Societies.tsx:54-58 | a predicate accepting every element returns the list unchanged |
| `ListFilter.IsSubsequenceReflexive` | src/pages/Events.tsx:71-73 | the unfiltered list (the `'all'` branch) is itself an order-preserving subsequence |
| `SidebarHook.BoolString` | src/hooks/useSidebar.ts:14 | `String(v)` is `"true"` exactly when v holds and `"false"` exactly when it does not |
| `SidebarHook.StoredCollapsed` | src/hooks/useSidebar.ts:6-10 | the lazy initial value is true exactly when a window exists and the slot holds `String(true)` |
| `SidebarHook.StoredCollapsedDefaults` | src/hooks/useSidebar.ts:6-10 | the initial `collapsed` is false without a window, without a stored value, and for any stored text other than `"true"` |
| `SidebarHook.ReadAfterWrite` | src/hooks/useSidebar.ts:8-14 | reading the slot back after writing `String(v)` yields v |
| `SidebarHook.IsMobileWidth` | src/hooks/useSidebar.ts:27-28 | the media query matches exactly the widths up to and including 768 |
| `SidebarHook.Init` | src/hooks/useSidebar.ts:6-25 | a new hook holds the stored preference and the given store, with `isMobile` false |
| `SidebarHook.Step` | src/hooks/useSidebar.ts:12-31 | toggle negates `collapsed` and setCollapsed sets it; both write `String` of the new value to the slot and leave `isMobile` alone; the viewport handler sets `isMobile` to `width <= 768` and touches neither `collapsed` nor the store; no action changes any other slot |
| `SidebarHook.InitInSync` | src/hooks/useSidebar.ts:6-10 | a hook created in a window starts with the value a fresh read of the store gives |
| `SidebarHook.StepKeepsInSync` | src/hooks/useSidebar.ts:12-31 | every action keeps the in-memory preference equal to what the store would give on a fresh read |
| `SidebarHook.RunKeepsInSync` | src/hooks/useSidebar.ts:6-23 | after any sequence of actions, re-initialising from the store yields the current `collapsed` |
| `SidebarHook.RunWritesSlot` | src/hooks/useSidebar.ts:12-23 | once any toggle or setCollapsed has run, the slot exists and holds `String(collapsed)` |
| `SidebarHook.RunWritesOnlyKey` | src/hooks/useSidebar.ts:3-20 | no sequence of actions changes any slot other than `STORAGE_KEY` |
| `SidebarHook.ViewportOnlyKeepsPreference` | src/hooks/useSidebar.ts:25-31 | viewport notifications alone leave `collapsed` and the store as they were |
| `SidebarHook.PreferenceOnlyKeepsMobile` | src/hooks/useSidebar.ts:12-23 | toggle and setCollapsed alone never change `isMobile` |
| `SidebarHook.MobileFollowsLatestWidth` | src/hooks/useSidebar.ts:26-31 | `isMobile` equals the media test of the most recent viewport width, whatever preference actions follow it |
| `SidebarHook.RunSplit` | src/hooks/useSidebar.ts:12-31 | running two action sequences in turn is running their concatenation |
| `SidebarHook.ToggleTwice` | src/hooks/useSidebar.ts:17-23 | two toggles restore `collapsed` and `isMobile` and leave `String(original)` in the slot |
| `SidebarHook.SetCollapsedIdempotent` | src/hooks/useSidebar.ts:12-15 | a second setCollapsed with the same value changes nothing further |
| `SidebarHook.Sidebar.constructor` | src/hooks/useSidebar.ts:6-25 | `collapsed` is the stored preference, `isMobile` is false, and the instance starts in sync with the store when a window exists |
| `SidebarHook.Sidebar.SetCollapsed` | src/hooks/useSidebar.ts:12-15 | `collapsed` becomes the value and the slot holds `String(value)`; `isMobile` is unchanged; memory and store agree |
| `SidebarHook.Sidebar.Toggle` | src/hooks/useSidebar.ts:17-23 | `collapsed` is negated and the slot holds `String` of the new value; `isMobile` is unchanged; memory and store agree |
| `SidebarHook.Sidebar.MediaChanged` | src/hooks/useSidebar.ts:26-31 | `isMobile` becomes `width <= 768`; `collapsed` and the store are unchanged |
| `SidebarHook.ReloadScenario` | src/hooks/useSidebar.ts:6-23 | with an empty store the hook starts expanded, one toggle collapses it, and a hook created again from the same store starts collapsed |
| `SidebarHook.ShrinkScenario` | src/hooks/useSidebar.ts:25-31 | a viewport change from 1024 to 500 turns `isMobile` from false to true and keeps the preference and the store |
| `Layout.SidebarWidth` | src/components/Layout.tsx:10 | the width is 80 exactly when collapsed and 260 exactly when expanded |
| `Layout.ContentMarginLeft` | src/components/Layout.tsx:81 | the margin is 0 exactly on mobile, and on desktop it is the sidebar width |
| `Layout.Render` | src/components/Layout.tsx:26-97 | backdrop and drawer are shown iff `isMobile && mobileMenuOpen` (lines 26, 37), BottomNav iff `isMobile` (line 97), and the margin follows line 81 |
| `Layout.DesktopFrame` | src/components/Layout.tsx:26-97 | on desktop no backdrop, drawer or bottom bar is shown, even with the menu flag set, and the margin is 80 or 260 |
| `Layout.MobileFrame` | src/components/Layout.tsx:26-97 | on mobile the margin is 0, the bottom bar is shown, and the drawer is shown exactly when the menu flag is set |
| `Layout.MenuStep` | src/components/Layout.tsx:32-86 | the menu button negates the flag; every closer leaves it false |
| `Layout.MenuStepLaws` | src/components/Layout.tsx:32-86 | two presses of the menu button restore the flag; closing is idempotent |
| `Layout.Shell.constructor` | src/components/Layout.tsx:13-14 | the shell creates its own hook from the store, and the menu starts closed with no drawer or backdrop |
| `Layout.Shell.MenuClick` | src/components/Layout.tsx:86 | the menu flag is negated and the sidebar state is unchanged |
| `Layout.Shell.CloseMenu` | src/components/Layout.tsx:32 | backdrop click (line 32), close button (line 52) and drawer link (line 68) set the flag to false, hide drawer and backdrop, and leave the sidebar unchanged |
| `Layout.Shell.SidebarToggle` | src/components/Layout.tsx:21 | the sidebar's toggle runs the hook's toggle, leaves the menu flag alone, and on desktop moves the margin to the new width |
| `Layout.Shell.ViewportChanged` | src/components/Layout.tsx:26-37 | the hook's media handler runs; the menu flag is kept, but at a desktop width drawer, backdrop and bottom bar are hidden |
| `Societies.Lower` | src/pages/Societies.tsx:56-57 | `toLowerCase` (ASCII): same length, each upper-case letter lowered and every other character kept |
| `Societies.Includes` | src/pages/Societies.tsx:56-57 | `includes`: a prefix is always found, the empty needle is found everywhere, and a found needle is never longer than the haystack |
| `Societies.IncludesIffOccurs` | src/pages/Societies.tsx:56-57 | `includes` holds exactly when the needle occurs at some index of the haystack |
| `Societies.Matches` | src/pages/Societies.tsx:55-57 | a society matches iff the lower-cased query occurs at some index of its lower-cased name or of its lower-cased category |
| `Societies.Search` | src/pages/Societies.tsx:54-58 | the result is an order-preserving subsequence of the list, and a society is in it iff the lower-cased query occurs in its lower-cased name or category |
| `Societies.SearchMultiplicity` | src/pages/Societies.tsx:54-58 | each matching society is listed as often as it occurs in the list, and no other society is listed |
| `Societies.EmptyQueryListsAll` | src/pages/Societies.tsx:54-58 | the empty query keeps every society, in order |
| `Societies.SearchCaseInsensitive` | src/pages/Societies.tsx:56-57 | queries with equal lower-case forms give the same result |
| `Societies.SearchLowerQuery` | src/pages/Societies.tsx:56-57 | lower-casing the query first does not change the result |
| `Societies.OnlyNameAndCategorySearched` | src/pages/Societies.tsx:55-57 | changing a society's description or member count never changes whether it matches |
| `Societies.TechExamples` | src/pages/Societies.tsx:54-58 | "tech" finds "Tech Society"; "tech talks for", which occurs only in its description, finds nothing |
| `Societies.ShowsNoMatchMessage` | src/pages/Societies.tsx:112-116 | the "No societies match" message appears iff no society matches the query |
| `Events.Visible` | src/pages/Events.tsx:71-74 | `'all'` returns the list unchanged; any other token gives a subsequence holding exactly the events whose status name equals the token |
| `Events.VisibleMultiplicity` | src/pages/Events.tsx:74 | for a status token each matching event appears as often as in the list, and others not at all |
| `Events.UnknownTokenShowsNothing` | src/pages/Events.tsx:74 | matching is exact: a token other than `'all'` that is no status name shows nothing |
| `Events.CaseSensitiveExample` | src/pages/Events.tsx:74 | the token "Live" shows nothing |
| `Events.DistinctTokensDisjoint` | src/pages/Events.tsx:74 | two different non-`'all'` tokens never show the same event |
| `Events.OfferedTokens` | src/pages/Events.tsx:88 | under the offered tokens a cancelled event is shown only with `'all'` |
| `Events.OfferedTokensAreStatuses` | src/pages/Events.tsx:88-92 | every offered token except `'all'` names a status other than cancelled |
| `Events.ShowsNoEventsMessage` | src/pages/Events.tsx:140-144 | the "No events in this category" message appears iff the list is empty under `'all'`, or no event has the selected status |
| `EventCard.StatusName` | src/components/EventCard.tsx:5 | each status is one of the four literals |
| `EventCard.StatusNameInjective` | src/components/EventCard.tsx:5 | different statuses have different names |
| `EventCard.StatusConfig` | src/components/EventCard.tsx:17-41 | the table is total; only `live` pulses; each label is the capitalised status name (Upcoming, Live, Ended, Cancelled) |
| `EventCard.StatusLabelsDistinct` | src/components/EventCard.tsx:17-41 | no two statuses share a label |
| `EventCard.Percent` | src/components/EventCard.tsx:52 | 0 without positive capacity; never above 100; exactly 100 when registrations reach capacity; `registered*100/capacity` (in [0,100]) up to capacity; negative when registrations are negative |
| `EventCard.FillColour` | src/components/EventCard.tsx:109 | red iff percent >= 90, amber iff 70 <= percent < 90, cyan iff percent < 70 |
| `EventCard.FillColourMonotone` | src/components/EventCard.tsx:109 | a fuller bar is never shown in a calmer colour |
| `EventCard.CapacityExtremes` | src/components/EventCard.tsx:52 | a booked-out event shows red; an event without capacity shows cyan |

## Left out

- Rendering, JSX, framer-motion animations, page transitions and Tailwind
  classes, including the `className` column of the status table.
- The real `window.matchMedia` subscription and its cleanup. The viewport
  width is a natural-number input to `MediaChanged`, which is called on mount
  and on every change notification.
- React's batching and StrictMode double calls of the `toggle` updater. Calls
  are modelled one after another.
- Sharing between hook instances. The navbar creates a second `useSidebar`
  instance. All instances share local storage but not their in-memory flags,
  and the model has one instance per `Shell`, whose `store` field stands for
  local storage.
- `Layout.Shell.CloseMenu`: a drawer link is a plain `<a href>`, so besides
  closing the menu it makes the browser load the page again. The model stops
  at clearing the flag; after the reload the hook is rebuilt from the store,
  which `SidebarHook.RunKeepsInSync` covers.
- `Layout.Shell.SidebarToggle` and `Layout.Shell.MenuClick` can be called in
  any mode. In the application the sidebar and its toggle render only on
  desktop, and the navbar's menu button only on mobile, so the model allows
  more calls than the screen does.
- Storage exceptions. The source does not catch them, and the store is a
  total map.
- `SidebarHook.Sidebar.constructor` takes `hasWindow` only for the initial
  read. Without a window, the source's later storage writes and media query
  would fail, and that path is not modelled.
- `Events` page `setFilter`: the filter token is an input to `Visible`. The
  page's initial value is the constant `INITIAL_FILTER` (`"all"`), and the
  offered tokens are `FILTER_TOKENS`.
- Unicode case mapping. `toLowerCase` is modelled on ASCII letters only.
- `EventCard.Percent` uses exact reals and integer inputs, not IEEE doubles.
  So rounding of `registered / capacity * 100` is not modelled.
- Sample data (the society and event arrays), except the one society used in
  `Societies.TechExamples`.
- The stat-card count-up and society-card tilt animations, the AI page, the
  navbar dropdown and search box, the theme toggle, and the static pages and
  routing. These are presentation or UI plumbing.

# Tab and overlay visibility of yattee's tab navigation

This project models the decision logic inside `AppTabNavigation`, the
tab-based root view of the yattee video client. Two things are decided there,
and both are pure functions of the current state:

- **Which tabs the tab strip shows, and in what order.** The view declares
  Home, Documents, Subscriptions, Popular, Trending, Playlists and Search in
  that order. Each tab is guarded by an `if` over:
  - the user defaults `showHome`, `showDocuments` and `visibleSections`;
  - whether any account exists (`accounts.isEmpty`);
  - the current account, which may be missing and may be anonymous;
  - the capabilities of the app behind the accounts.

  Module `TabVisibility` gives this chain as `Tabs`. `Shown` states each
  tab's rule on its own. `Select` is a second definition: the canonical tab
  order filtered by `Shown`. The lemmas prove that the two definitions agree,
  that the result is ordered and has no duplicates, and that each edge case
  holds:
  - Popular is capped: it needs fewer than five enabled sections.
  - A missing current account counts as anonymous.
  - Search is gated only by accounts existing.
- **Which detail overlays cover the tabs, at what z-index.** The channel
  overlay and the playlist overlay are each shown while the navigation model
  presents them. While the full-screen player is presented, both sit at
  z-index -1, lower than the default 0 of a view that sets none. Otherwise
  the channel overlay sits at 2 and the playlist overlay at 1. Module `DetailOverlays` gives this as
  `Overlays`, in the order the view attaches them (playlist, then channel).

Module `Options` holds the optional type that stands in for Swift optionals.

The accounts model, navigation model, player model and defaults store are
not part of this model. Their state enters only as the fields of the input
records `TabInputs` and `OverlayInputs`. Nothing links `accountsEmpty` to
`current`, because the source does not show what keeps them consistent.

The account gate is only `!accounts.isEmpty`
(`Shared/Navigation/AppTabNavigation.swift:28`). An anonymous or missing
current account therefore still gets Popular, Trending and Search; only
Subscriptions and Playlists look at the current account.

## Model

| member | source | states |
|---|---|---|
| `TabVisibility.Tabs` | Shared/Navigation/AppTabNavigation.swift:19-46 | A tab is in the strip exactly when its own rule holds: Home iff `showHome`, Documents iff `showDocuments`, and each account tab iff accounts exist and its section, capability and anonymity conditions hold |
| `TabVisibility.TabsAreCanonicalSelection` | Shared/Navigation/AppTabNavigation.swift:19-46 | The chain of `if`s equals the fixed order Home, Documents, Subscriptions, Popular, Trending, Playlists, Search filtered by the per-tab rules |
| `TabVisibility.TabsOrdered` | Shared/Navigation/AppTabNavigation.swift:19-46 | The strip is strictly increasing in that fixed order, so no tab appears twice |
| `TabVisibility.LocalTabsFollowTheirSwitches` | Shared/Navigation/AppTabNavigation.swift:20-26 | Home is present iff `showHome` and Documents iff `showDocuments`; two inputs that agree on the switch agree on the tab, whatever their accounts |
| `TabVisibility.NoAccountsOnlyLocalTabs` | Shared/Navigation/AppTabNavigation.swift:20-46 | With no accounts the strip is exactly Home (if `showHome`) followed by Documents (if `showDocuments`); nothing else appears |
| `TabVisibility.SearchIffAccounts` | Shared/Navigation/AppTabNavigation.swift:28-46 | Search is present iff some account exists, and depends on nothing else |
| `TabVisibility.PopularRule` | Shared/Navigation/AppTabNavigation.swift:33 | Popular is present iff accounts exist, `.popular` is enabled, the app supports Popular and fewer than 5 sections are enabled; with 5 or more it is always absent |
| `TabVisibility.SignedInTabsRule` | Shared/Navigation/AppTabNavigation.swift:93-101 | Subscriptions (resp. Playlists) is present iff accounts exist, its section is enabled, the app supports it, and the current account exists and is not anonymous; a missing current account hides both |
| `TabVisibility.TrendingRule` | Shared/Navigation/AppTabNavigation.swift:37 | Trending is present iff accounts exist and `.trending` is enabled; inputs that agree on those two agree on Trending |
| `TabVisibility.CurrentAccountGatesOnlySignedInTabs` | Shared/Navigation/AppTabNavigation.swift:28-46 | Changing only the current account (missing, anonymous or named) never changes whether Home, Documents, Popular, Trending or Search is shown; only Subscriptions and Playlists read it |
| `TabVisibility.FiveSectionsDropPopular` | Shared/Navigation/AppTabNavigation.swift:28-46 | With five sections enabled including Popular, full capabilities and a non-anonymous account, the strip is Subscriptions, Trending, Playlists, Search: the cap alone removes Popular |
| `DetailOverlays.ZIndex` | Shared/Navigation/AppTabNavigation.swift:180-192 | An overlay's z-index is below the default 0 of a view that sets none exactly while the player is presented, and is never level with it |
| `DetailOverlays.ChannelView` | Shared/Navigation/AppTabNavigation.swift:171-183 | The channel overlay exists iff `presentingChannel`, with the channel z-index |
| `DetailOverlays.PlaylistView` | Shared/Navigation/AppTabNavigation.swift:185-195 | The playlist overlay exists iff `presentingPlaylist`, with the playlist z-index |
| `DetailOverlays.Overlays` | Shared/Navigation/AppTabNavigation.swift:171-195 | At most two overlays, one per kind; the channel overlay is present iff `presentingChannel`, the playlist overlay iff `presentingPlaylist`; when both are present they come in attach order, playlist then channel |
| `DetailOverlays.OverlaysSinkUnderPlayer` | Shared/Navigation/AppTabNavigation.swift:171-195 | While the player is presented every overlay sits at -1; all shown overlays are below the default 0 iff the player is presented (or none is shown) |
| `DetailOverlays.ChannelAbovePlaylist` | Shared/Navigation/AppTabNavigation.swift:171-195 | Without the player, the channel overlay is at 2 and the playlist overlay at 1, so the channel overlay is strictly above the playlist overlay |
| `DetailOverlays.BothPresentedUnderPlayer` | Shared/Navigation/AppTabNavigation.swift:171-195 | With both presented and the player up, the overlays are playlist at -1, then channel at -1 |

## Left out

- View construction is not modelled: `NavigationView`, `LazyView`, `tabItem` labels, icons, accessibility text, the `ControlsBar` overlay and `.transition(.move(edge: .bottom))`. They are presentation only.
- `toolbarContent` and its iOS-only branches are not modelled. This includes `showOpenActionsToolbarItem`. They are platform UI, and their buttons only set navigation flags.
- The view-identity resets are not modelled. These are `.id(accounts.current?.id ?? "")`, which rebuilds the tab view on an account switch, and `.id("channelVideos")` / `.id("channelPlaylist")`. They are framework lifecycle behaviour with no observable contract in the code.
- Which tab is selected, and the fallback when the selected tab disappears, is not modelled. That lives behind `navigation.tabSelectionBinding` in the navigation model, which is not part of this model.
- The `VisibleSection` enumeration is not part of this model. The view inspects only `.subscriptions`, `.popular`, `.trending` and `.playlists`. Any other case is an `Other` section, which counts towards the `count < 5` cap.
- How the UI framework composites z-indices across nested `.overlay` modifiers is not modelled. The model states the z-index values the view assigns and the order in which it attaches the overlays.
- `ChannelVideosView` and `ChannelPlaylistView` are not part of this model. They hold resource loading, share sheets and subscribe/unsubscribe calls into models whose code is not shown.
- `AccountsModel`, `NavigationModel`, `PlayerModel`, `PersistenceController` and the defaults store are not part of this model. They appear only as input values.

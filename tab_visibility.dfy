/**
 * Which top-level tabs the tab navigation shows, and in what order.
 *
 * The view builds its tab strip from a chain of `if` statements over user
 * defaults (`showHome`, `showDocuments`, `visibleSections`) and over the
 * accounts model (whether any account exists, the current account, the
 * capabilities of the app behind it). `Tabs` is that chain as a total, pure
 * function; `Shown` states the rule for each tab on its own; the lemmas tie
 * the two together and pin down the edge cases.
 */
module TabVisibility {
  import opened Options

  /** The tags the view attaches to its tabs (`TabSelection`). */
  datatype TabSelection = Home | Documents | Subscriptions | Popular | Trending | Playlists | Search

  /**
   * The sections the user can enable (`VisibleSection`). The view only asks
   * about four of them; every other case of the user's enumeration is an
   * `Other`, which still counts towards the size of the set.
   */
  datatype Section = SubscriptionsSection | PopularSection | TrendingSection | PlaylistsSection | Other(name: string)

  /** An account as far as the tab rules look at it (`accounts.current`). */
  datatype Account = Account(id: string, anonymous: bool)

  /** The capabilities of the app the accounts belong to (`accounts.app`). */
  datatype AppCapabilities = AppCapabilities(
    supportsPopular: bool,
    supportsSubscriptions: bool,
    supportsUserPlaylists: bool)

  /**
   * Everything the tab strip is computed from. `accountsEmpty` is
   * `accounts.isEmpty`; nothing ties it to `current`, since the accounts
   * model that keeps them is not part of this model.
   */
  datatype TabInputs = TabInputs(
    showHome: bool,
    showDocuments: bool,
    visibleSections: set<Section>,
    accountsEmpty: bool,
    app: AppCapabilities,
    current: Option<Account>)

  /** The view caps the number of enabled sections for which Popular still gets a tab. */
  const PopularSectionCap: nat := 5

  /** `accounts.current?.anonymous`. */
  function AnonymousFlag(current: Option<Account>): Option<bool>
  {
    match current
    case None => None
    case Some(a) => Some(a.anonymous)
  }

  /**
   * `!(accounts.current?.anonymous ?? true)`: there is a current account and
   * it is not anonymous. A missing current account counts as anonymous.
   */
  predicate CurrentNotAnonymous(current: Option<Account>)
  {
    !AnonymousFlag(current).GetOr(true)
  }

  /** The `subscriptionsVisible` property of the view. */
  predicate SubscriptionsVisible(x: TabInputs)
  {
    SubscriptionsSection in x.visibleSections && x.app.supportsSubscriptions && CurrentNotAnonymous(x.current)
  }

  /** The `playlistsVisible` property of the view. */
  predicate PlaylistsVisible(x: TabInputs)
  {
    PlaylistsSection in x.visibleSections && x.app.supportsUserPlaylists && CurrentNotAnonymous(x.current)
  }

  /** The inline condition in front of the Popular tab. */
  predicate PopularVisible(x: TabInputs)
  {
    PopularSection in x.visibleSections && x.app.supportsPopular && |x.visibleSections| < PopularSectionCap
  }

  /** The inline condition in front of the Trending tab. */
  predicate TrendingVisible(x: TabInputs)
  {
    TrendingSection in x.visibleSections
  }

  /** One tab when `cond` holds, none otherwise. */
  function TabIf(cond: bool, t: TabSelection): seq<TabSelection>
  {
    if cond then [t] else []
  }

  /** The tabs inside the `if !accounts.isEmpty` block, in the order the view declares them. */
  function AccountTabs(x: TabInputs): seq<TabSelection>
  {
    TabIf(SubscriptionsVisible(x), Subscriptions)
      + (TabIf(PopularVisible(x), Popular)
      + (TabIf(TrendingVisible(x), Trending)
      + (TabIf(PlaylistsVisible(x), Playlists)
      + [Search])))
  }

  /**
   * The tab strip, in the order the view declares its tabs. Its contract:
   * a tab is present exactly when its own rule `Shown` holds.
   */
  function Tabs(x: TabInputs): (r: seq<TabSelection>)
    ensures forall t :: t in r <==> Shown(x, t)
  {
    TabIf(x.showHome, Home)
      + (TabIf(x.showDocuments, Documents)
      + (if !x.accountsEmpty then AccountTabs(x) else []))
  }

  /** The rule for each tab on its own, as the conditions around its declaration say. */
  predicate Shown(x: TabInputs, t: TabSelection)
  {
    match t
    case Home => x.showHome
    case Documents => x.showDocuments
    case Subscriptions => !x.accountsEmpty && SubscriptionsVisible(x)
    case Popular => !x.accountsEmpty && PopularVisible(x)
    case Trending => !x.accountsEmpty && TrendingVisible(x)
    case Playlists => !x.accountsEmpty && PlaylistsVisible(x)
    case Search => !x.accountsEmpty
  }

  /** The position of each tab in the declaration order of the view. */
  function Rank(t: TabSelection): nat
  {
    match t
    case Home => 0
    case Documents => 1
    case Subscriptions => 2
    case Popular => 3
    case Trending => 4
    case Playlists => 5
    case Search => 6
  }

  /** Every tab, once each, in declaration order. */
  const Canonical: seq<TabSelection> := [Home, Documents, Subscriptions, Popular, Trending, Playlists, Search]

  /** The tabs of `s`, in the order of `s`, whose rule holds for `x`. */
  function Select(x: TabInputs, s: seq<TabSelection>): seq<TabSelection>
  {
    if s == [] then [] else TabIf(Shown(x, s[0]), s[0]) + Select(x, s[1..])
  }

  /** Strictly increasing in declaration order: ordered and free of duplicates. */
  predicate StrictlyOrdered(s: seq<TabSelection>)
  {
    forall i, j :: 0 <= i < j < |s| ==> Rank(s[i]) < Rank(s[j])
  }

  /** `Canonical` lists every tab, in declaration order. */
  lemma CanonicalComplete()
    ensures forall t :: t in Canonical
    ensures StrictlyOrdered(Canonical)
  {
    forall t ensures t in Canonical {
      assert Canonical[Rank(t)] == t;
    }
  }

  /** Selecting from a sequence keeps exactly the elements whose rule holds. */
  lemma {:induction false} SelectMembers(x: TabInputs, s: seq<TabSelection>, t: TabSelection)
    ensures t in Select(x, s) <==> t in s && Shown(x, t)
  {
    if s != [] {
      SelectMembers(x, s[1..], t);
      assert s == [s[0]] + s[1..];
    }
  }

  /** Selecting from a strictly ordered sequence gives a strictly ordered sequence. */
  lemma {:induction false} SelectOrdered(x: TabInputs, s: seq<TabSelection>)
    requires StrictlyOrdered(s)
    ensures StrictlyOrdered(Select(x, s))
  {
    if s != [] {
      var rest := Select(x, s[1..]);
      SelectOrdered(x, s[1..]);
      forall t | t in rest
        ensures Rank(s[0]) < Rank(t)
      {
        SelectMembers(x, s[1..], t);
      }
    }
  }

  /**
   * The chain of `if`s in the view is the canonical tab order filtered by
   * the per-tab rules.
   */
  lemma TabsAreCanonicalSelection(x: TabInputs)
    ensures Tabs(x) == Select(x, Canonical)
  {
    var rest := [Subscriptions, Popular, Trending, Playlists, Search];
    SelectAccountTabs(x);
    var s1 := [Documents] + rest;
    assert Select(x, s1) == TabIf(Shown(x, Documents), Documents) + Select(x, rest) by { assert s1[1..] == rest; }
    assert Canonical == [Home] + s1;
    assert Canonical[1..] == s1;
  }

  /** The account-gated part of the canonical order selects to the `if !accounts.isEmpty` block. */
  lemma SelectAccountTabs(x: TabInputs)
    ensures Select(x, [Subscriptions, Popular, Trending, Playlists, Search])
      == if !x.accountsEmpty then AccountTabs(x) else []
  {
    var s := [Subscriptions, Popular, Trending, Playlists, Search];
    // Unfold `Select` once per tab, from the end.
    var s5 := [Search];
    assert Select(x, s5) == TabIf(Shown(x, Search), Search) by { assert s5[1..] == []; }
    var s4 := [Playlists] + s5;
    assert Select(x, s4) == TabIf(Shown(x, Playlists), Playlists) + Select(x, s5) by { assert s4[1..] == s5; }
    var s3 := [Trending] + s4;
    assert Select(x, s3) == TabIf(Shown(x, Trending), Trending) + Select(x, s4) by { assert s3[1..] == s4; }
    var s2 := [Popular] + s3;
    assert Select(x, s2) == TabIf(Shown(x, Popular), Popular) + Select(x, s3) by { assert s2[1..] == s3; }
    assert s == [Subscriptions] + s2;
    assert Select(x, s) == TabIf(Shown(x, Subscriptions), Subscriptions) + Select(x, s2) by { assert s[1..] == s2; }
  }

  /** The tab strip is in declaration order and holds no tab twice. */
  lemma TabsOrdered(x: TabInputs)
    ensures StrictlyOrdered(Tabs(x))
    ensures forall i, j :: 0 <= i < j < |Tabs(x)| ==> Tabs(x)[i] != Tabs(x)[j]
  {
    TabsAreCanonicalSelection(x);
    CanonicalComplete();
    SelectOrdered(x, Canonical);
  }

  /**
   * Home is shown exactly when `showHome` is set and Documents exactly when
   * `showDocuments` is set; accounts, sections and capabilities play no part.
   */
  lemma LocalTabsFollowTheirSwitches(x: TabInputs, y: TabInputs)
    ensures Home in Tabs(x) <==> x.showHome
    ensures Documents in Tabs(x) <==> x.showDocuments
    ensures x.showHome == y.showHome ==> (Home in Tabs(x) <==> Home in Tabs(y))
    ensures x.showDocuments == y.showDocuments ==> (Documents in Tabs(x) <==> Documents in Tabs(y))
  {
  }

  /** Without accounts only Home and Documents can appear, each per its switch. */
  lemma NoAccountsOnlyLocalTabs(x: TabInputs)
    requires x.accountsEmpty
    ensures Tabs(x) == TabIf(x.showHome, Home) + TabIf(x.showDocuments, Documents)
    ensures forall t :: t in Tabs(x) ==> t == Home || t == Documents
  {
  }

  /** Search is shown exactly when some account exists, whatever else holds. */
  lemma SearchIffAccounts(x: TabInputs, y: TabInputs)
    ensures Search in Tabs(x) <==> !x.accountsEmpty
    ensures x.accountsEmpty == y.accountsEmpty ==> (Search in Tabs(x) <==> Search in Tabs(y))
  {
  }

  /**
   * Popular needs an account, the Popular section, an app that supports it
   * and fewer than five enabled sections; with five or more it is never shown.
   */
  lemma PopularRule(x: TabInputs)
    ensures Popular in Tabs(x) <==>
      !x.accountsEmpty && PopularSection in x.visibleSections && x.app.supportsPopular && |x.visibleSections| < 5
    ensures |x.visibleSections| >= 5 ==> Popular !in Tabs(x)
  {
  }

  /**
   * Subscriptions and Playlists need an account, their section, the app's
   * support and a current account that exists and is not anonymous; a
   * missing current account hides both.
   */
  lemma SignedInTabsRule(x: TabInputs)
    ensures Subscriptions in Tabs(x) <==>
      !x.accountsEmpty && SubscriptionsSection in x.visibleSections && x.app.supportsSubscriptions
      && x.current.Some? && !x.current.value.anonymous
    ensures Playlists in Tabs(x) <==>
      !x.accountsEmpty && PlaylistsSection in x.visibleSections && x.app.supportsUserPlaylists
      && x.current.Some? && !x.current.value.anonymous
    ensures x.current.None? ==> Subscriptions !in Tabs(x) && Playlists !in Tabs(x)
  {
  }

  /** Trending depends only on whether an account exists and on the Trending section. */
  lemma TrendingRule(x: TabInputs, y: TabInputs)
    ensures Trending in Tabs(x) <==> !x.accountsEmpty && TrendingSection in x.visibleSections
    ensures x.accountsEmpty == y.accountsEmpty
      && (TrendingSection in x.visibleSections <==> TrendingSection in y.visibleSections)
      ==> (Trending in Tabs(x) <==> Trending in Tabs(y))
  {
  }

  /**
   * Five enabled sections, Popular among them, an app that supports every
   * listing and a named current account: Popular is dropped by the cap alone,
   * while Subscriptions, Trending, Playlists and Search stay.
   */
  lemma FiveSectionsDropPopular(current: Account)
    requires !current.anonymous
    ensures
      var x := TabInputs(false, false,
        {SubscriptionsSection, PopularSection, TrendingSection, PlaylistsSection, Other("favorites")},
        false, AppCapabilities(true, true, true), Some(current));
      Tabs(x) == [Subscriptions, Trending, Playlists, Search]
  {
    var sections := {SubscriptionsSection, PopularSection, TrendingSection, PlaylistsSection, Other("favorites")};
    assert |sections| == 5;
  }

  /**
   * The account gate reads only whether the account list is empty: replacing
   * the current account, by none, an anonymous one or a named one, leaves
   * every tab except Subscriptions and Playlists as it was.
   */
  lemma CurrentAccountGatesOnlySignedInTabs(x: TabInputs, current: Option<Account>, t: TabSelection)
    requires t != Subscriptions && t != Playlists
    ensures t in Tabs(x) <==> t in Tabs(x.(current := current))
  {
  }
}

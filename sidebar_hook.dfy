/** The `useSidebar` hook: a `collapsed` preference that is read once from a
    persisted key-value slot and written back on every change, and an
    `isMobile` flag driven by a max-width media query.

    The pure part (`Snapshot`, `Step`, `Run`) is the specification; the class
    `Sidebar` is the hook instance, whose methods are proved against it. */
module SidebarHook {

  /** The one slot of the persistent store that the hook uses. */
  const STORAGE_KEY: string := "college-society-sidebar-collapsed"

  /** The media query is `(max-width: 768px)`: widths up to and including 768 are mobile. */
  const MOBILE_MAX_WIDTH: nat := 768

  /** `String(b)` for a boolean: the text "true" or "false". */
  function BoolString(b: bool): (s: string)
    ensures s == "true" <==> b
    ensures s == "false" <==> !b
  {
    if b then "true" else "false"
  }

  /** The initial `collapsed`: true exactly when a window exists and the slot
      holds the text "true"; an absent slot or any other text gives false. */
  function StoredCollapsed(hasWindow: bool, store: map<string, string>): (collapsed: bool)
    ensures collapsed ==> hasWindow && STORAGE_KEY in store && store[STORAGE_KEY] == BoolString(true)
    ensures hasWindow && STORAGE_KEY in store && store[STORAGE_KEY] == BoolString(true) ==> collapsed
  {
    hasWindow && STORAGE_KEY in store && store[STORAGE_KEY] == BoolString(true)
  }

  /** The three ways the initial value comes out false. */
  lemma StoredCollapsedDefaults(hasWindow: bool, store: map<string, string>)
    ensures !hasWindow ==> !StoredCollapsed(hasWindow, store)
    ensures STORAGE_KEY !in store ==> !StoredCollapsed(hasWindow, store)
    ensures STORAGE_KEY in store && store[STORAGE_KEY] != "true" ==> !StoredCollapsed(hasWindow, store)
  {
  }

  /** Reading the slot back after writing `String(v)` gives `v`. */
  lemma ReadAfterWrite(store: map<string, string>, v: bool)
    ensures StoredCollapsed(true, store[STORAGE_KEY := BoolString(v)]) == v
  {
  }

  /** The media query `(max-width: 768px)` for a viewport width. */
  function IsMobileWidth(width: nat): (mobile: bool)
    ensures mobile <==> width <= MOBILE_MAX_WIDTH
  {
    width <= MOBILE_MAX_WIDTH
  }

  /** What one hook instance holds, together with the persistent store. */
  datatype Snapshot = Snapshot(collapsed: bool, isMobile: bool, store: map<string, string>)

  /** What can happen to the hook: `toggle()`, `setCollapsed(v)`, or a change
      notification from the media query at a new viewport width. */
  datatype Action = ToggleClicked | CollapsedSet(value: bool) | ViewportChanged(width: nat)

  /** The state right after the hook is created: `isMobile` starts false. */
  function Init(hasWindow: bool, store: map<string, string>): (s: Snapshot)
    ensures !s.isMobile && s.store == store
    ensures s.collapsed == StoredCollapsed(hasWindow, store)
  {
    Snapshot(StoredCollapsed(hasWindow, store), false, store)
  }

  /** The collapsed state written to the slot. */
  function Persist(s: Snapshot, collapsed: bool): Snapshot
  {
    s.(collapsed := collapsed, store := s.store[STORAGE_KEY := BoolString(collapsed)])
  }

  /** One action. Only the two preference actions write, and only to `STORAGE_KEY`;
      the viewport handler touches neither `collapsed` nor the store. */
  function Step(s: Snapshot, a: Action): (t: Snapshot)
    ensures a.ToggleClicked? ==> t.collapsed == !s.collapsed
    ensures a.CollapsedSet? ==> t.collapsed == a.value
    ensures !a.ViewportChanged? ==> t.isMobile == s.isMobile
    ensures !a.ViewportChanged? ==> STORAGE_KEY in t.store && t.store[STORAGE_KEY] == BoolString(t.collapsed)
    ensures t.store - {STORAGE_KEY} == s.store - {STORAGE_KEY}
    ensures a.ViewportChanged? ==> t.collapsed == s.collapsed && t.store == s.store
    ensures a.ViewportChanged? ==> t.isMobile == (a.width <= MOBILE_MAX_WIDTH)
  {
    match a
    case ToggleClicked => Persist(s, !s.collapsed)
    case CollapsedSet(v) => Persist(s, v)
    case ViewportChanged(w) => s.(isMobile := IsMobileWidth(w))
  }

  /** The actions applied in order. */
  function Run(s: Snapshot, actions: seq<Action>): Snapshot
    decreases |actions|
  {
    if actions == [] then s
    else Step(Run(s, actions[..|actions| - 1]), actions[|actions| - 1])
  }

  /** The in-memory preference is what a fresh hook would read from the store. */
  predicate InSync(s: Snapshot)
  {
    s.collapsed == StoredCollapsed(true, s.store)
  }

  /** A new hook in a browser window starts in sync with the store. */
  lemma InitInSync(store: map<string, string>)
    ensures InSync(Init(true, store))
  {
  }

  /** Every action keeps memory and store in sync. */
  lemma StepKeepsInSync(s: Snapshot, a: Action)
    requires InSync(s)
    ensures InSync(Step(s, a))
  {
  }

  /** Read-after-write round trip: after any sequence of actions, a hook
      created again from the same store starts with the current preference. */
  lemma {:induction false} RunKeepsInSync(s: Snapshot, actions: seq<Action>)
    requires InSync(s)
    ensures InSync(Run(s, actions))
    ensures Init(true, Run(s, actions).store).collapsed == Run(s, actions).collapsed
  {
    if actions != [] {
      RunKeepsInSync(s, actions[..|actions| - 1]);
      StepKeepsInSync(Run(s, actions[..|actions| - 1]), actions[|actions| - 1]);
    }
  }

  /** After at least one preference action the slot exists and holds `String(collapsed)`. */
  lemma {:induction false} RunWritesSlot(s: Snapshot, actions: seq<Action>, i: nat)
    requires i < |actions| && !actions[i].ViewportChanged?
    ensures STORAGE_KEY in Run(s, actions).store
    ensures Run(s, actions).store[STORAGE_KEY] == BoolString(Run(s, actions).collapsed)
  {
    var n := |actions| - 1;
    if i < n {
      assert actions[..n][i] == actions[i];
      RunWritesSlot(s, actions[..n], i);
    }
  }

  /** No sequence of actions changes any slot other than `STORAGE_KEY`. */
  lemma {:induction false} RunWritesOnlyKey(s: Snapshot, actions: seq<Action>)
    ensures Run(s, actions).store - {STORAGE_KEY} == s.store - {STORAGE_KEY}
  {
    if actions != [] {
      RunWritesOnlyKey(s, actions[..|actions| - 1]);
    }
  }

  /** Viewport changes alone never change the preference or the store. */
  lemma {:induction false} ViewportOnlyKeepsPreference(s: Snapshot, actions: seq<Action>)
    requires forall i :: 0 <= i < |actions| ==> actions[i].ViewportChanged?
    ensures Run(s, actions).collapsed == s.collapsed
    ensures Run(s, actions).store == s.store
  {
    if actions != [] {
      var n := |actions| - 1;
      assert forall i :: 0 <= i < n ==> actions[..n][i] == actions[i];
      ViewportOnlyKeepsPreference(s, actions[..n]);
    }
  }

  /** Preference actions alone never change `isMobile`. */
  lemma {:induction false} PreferenceOnlyKeepsMobile(s: Snapshot, actions: seq<Action>)
    requires forall i :: 0 <= i < |actions| ==> !actions[i].ViewportChanged?
    ensures Run(s, actions).isMobile == s.isMobile
  {
    if actions != [] {
      var n := |actions| - 1;
      assert forall i :: 0 <= i < n ==> actions[..n][i] == actions[i];
      PreferenceOnlyKeepsMobile(s, actions[..n]);
    }
  }

  /** `isMobile` follows the latest viewport width: after a change notification
      at `width`, whatever preference actions follow, it is `width <= 768`. */
  lemma {:induction false} MobileFollowsLatestWidth(s: Snapshot, before: seq<Action>, width: nat, after: seq<Action>)
    requires forall i :: 0 <= i < |after| ==> !after[i].ViewportChanged?
    ensures Run(s, before + [ViewportChanged(width)] + after).isMobile == (width <= MOBILE_MAX_WIDTH)
  {
    var prefix := before + [ViewportChanged(width)];
    RunSplit(s, prefix, after);
    assert prefix[..|prefix| - 1] == before;
    PreferenceOnlyKeepsMobile(Run(s, prefix), after);
  }

  /** Running two sequences in turn is running their concatenation. */
  lemma {:induction false} RunSplit(s: Snapshot, xs: seq<Action>, ys: seq<Action>)
    ensures Run(s, xs + ys) == Run(Run(s, xs), ys)
    decreases |ys|
  {
    if ys == [] {
      assert xs + ys == xs;
    } else {
      var n := |ys| - 1;
      assert (xs + ys)[..|xs + ys| - 1] == xs + ys[..n];
      RunSplit(s, xs, ys[..n]);
    }
  }

  /** Two toggles restore the preference, with `String` of it in the slot. */
  lemma ToggleTwice(s: Snapshot)
    ensures Step(Step(s, ToggleClicked), ToggleClicked).collapsed == s.collapsed
    ensures Step(Step(s, ToggleClicked), ToggleClicked).store == s.store[STORAGE_KEY := BoolString(s.collapsed)]
    ensures Step(Step(s, ToggleClicked), ToggleClicked).isMobile == s.isMobile
  {
  }

  /** Setting the same value twice changes nothing the first call did not. */
  lemma SetCollapsedIdempotent(s: Snapshot, v: bool)
    ensures Step(Step(s, CollapsedSet(v)), CollapsedSet(v)) == Step(s, CollapsedSet(v))
  {
  }

  /** One `useSidebar` instance. `store` stands for the browser's local storage,
      which every instance shares; the two flags are the instance's own state. */
  class Sidebar {
    var collapsed: bool
    var isMobile: bool
    var store: map<string, string>

    /** The instance's state as a value of the specification. */
    function State(): Snapshot
      reads this
    {
      Snapshot(collapsed, isMobile, store)
    }

    /** The lazy initial state: `collapsed` from the slot, `isMobile` false. */
    constructor (hasWindow: bool, storage: map<string, string>)
      ensures collapsed == StoredCollapsed(hasWindow, storage)
      ensures !isMobile && store == storage
      ensures State() == Init(hasWindow, storage)
      ensures hasWindow ==> InSync(State())
    {
      collapsed := StoredCollapsed(hasWindow, storage);
      isMobile := false;
      store := storage;
    }

    /** `setCollapsed(value)`: set the flag, then write `String(value)` to the slot. */
    method SetCollapsed(value: bool)
      modifies this
      ensures collapsed == value && isMobile == old(isMobile)
      ensures store == old(store)[STORAGE_KEY := BoolString(value)]
      ensures State() == Step(old(State()), CollapsedSet(value))
      ensures InSync(State())
    {
      collapsed := value;
      store := store[STORAGE_KEY := BoolString(value)];
    }

    /** `toggle()`: negate the flag and write `String` of the new value to the slot. */
    method Toggle()
      modifies this
      ensures collapsed == !old(collapsed) && isMobile == old(isMobile)
      ensures store == old(store)[STORAGE_KEY := BoolString(collapsed)]
      ensures State() == Step(old(State()), ToggleClicked)
      ensures InSync(State())
    {
      var next := !collapsed;
      store := store[STORAGE_KEY := BoolString(next)];
      collapsed := next;
    }

    /** The media-query handler, run once on mount and on every change
      notification: `isMobile` becomes whether the query matches `width`. */
    method MediaChanged(width: nat)
      modifies this
      ensures isMobile == (width <= MOBILE_MAX_WIDTH)
      ensures collapsed == old(collapsed) && store == old(store)
      ensures State() == Step(old(State()), ViewportChanged(width))
    {
      isMobile := IsMobileWidth(width);
    }
  }

  /** First load with an empty store, one toggle, then a reload from the same store. */
  method ReloadScenario() returns (first: bool, toggled: bool, reloaded: bool)
    ensures !first && toggled && reloaded
  {
    var hook := new Sidebar(true, map[]);
    first := hook.collapsed;
    hook.Toggle();
    toggled := hook.collapsed;
    assert hook.store[STORAGE_KEY] == "true";
    var again := new Sidebar(true, hook.store);
    reloaded := again.collapsed;
  }

  /** The viewport shrinks from 1024 to 500: `isMobile` turns on and the preference stays. */
  method ShrinkScenario(storage: map<string, string>) returns (wide: bool, narrow: bool, keptCollapsed: bool)
    ensures !wide && narrow && keptCollapsed
  {
    var hook := new Sidebar(true, storage);
    var before := hook.collapsed;
    hook.MediaChanged(1024);
    wide := hook.isMobile;
    hook.MediaChanged(500);
    narrow := hook.isMobile;
    keptCollapsed := hook.collapsed == before && hook.store == storage;
  }
}

/**
  The `ui` slice of the renderer's store (src/ui/store/slices/uiSlice.ts):
  theme and density (held both at the top level and inside `config`),
  the sidebar flag, the notification list and the application settings.
 */
module UiSlice {
  import opened Types
  import opened Seqs

  datatype State = State(
    theme: Theme,
    density: Density,
    sidebarCollapsed: bool,
    notifications: seq<Notification>,
    config: AppConfig)

  const Initial := State(Dark, Normal, false, [], AppConfig(Dark, Normal, 1000, 30000, true))

  /** The keys of a `Partial<AppConfig>` payload; an absent key is `None`. */
  datatype ConfigPatch = ConfigPatch(
    theme: Option<Theme>,
    density: Option<Density>,
    maxResults: Option<int>,
    queryTimeout: Option<int>,
    autoSave: Option<bool>)

  /** The top-level theme and density agree with the ones in `config`. */
  predicate InSync(s: State) {
    s.theme == s.config.theme && s.density == s.config.density
  }

  /** `setTheme`: both copies of the theme take the new value. */
  function SetTheme(s: State, theme: Theme): (r: State)
    ensures r.theme == theme && r.config.theme == theme
    ensures InSync(s) ==> InSync(r)
    ensures r.config == s.config.(theme := theme)
    ensures r.density == s.density && r.sidebarCollapsed == s.sidebarCollapsed && r.notifications == s.notifications
  {
    s.(theme := theme, config := s.config.(theme := theme))
  }

  /** `setDensity`: both copies of the density take the new value. */
  function SetDensity(s: State, density: Density): (r: State)
    ensures r.density == density && r.config.density == density
    ensures InSync(s) ==> InSync(r)
    ensures r.config == s.config.(density := density)
    ensures r.theme == s.theme && r.sidebarCollapsed == s.sidebarCollapsed && r.notifications == s.notifications
  {
    s.(density := density, config := s.config.(density := density))
  }

  /** `toggleSidebar` */
  function ToggleSidebar(s: State): (r: State)
    ensures r.sidebarCollapsed != s.sidebarCollapsed
    ensures r.theme == s.theme && r.density == s.density && r.notifications == s.notifications && r.config == s.config
  {
    s.(sidebarCollapsed := !s.sidebarCollapsed)
  }

  /** `setSidebarCollapsed` */
  function SetSidebarCollapsed(s: State, collapsed: bool): (r: State)
    ensures r.sidebarCollapsed == collapsed
    ensures r.theme == s.theme && r.density == s.density && r.notifications == s.notifications && r.config == s.config
  {
    s.(sidebarCollapsed := collapsed)
  }

  /** `addNotification`: appended at the end. */
  function AddNotification(s: State, n: Notification): (r: State)
    ensures |r.notifications| == |s.notifications| + 1
    ensures r.notifications[..|s.notifications|] == s.notifications && r.notifications[|s.notifications|] == n
    ensures r.theme == s.theme && r.density == s.density && r.sidebarCollapsed == s.sidebarCollapsed && r.config == s.config
  {
    s.(notifications := s.notifications + [n])
  }

  function KeepsNotification(id: string): Notification -> bool {
    (n: Notification) => n.id != id
  }

  /** `removeNotification`: every notification with the id goes, the rest keep their order. */
  function RemoveNotification(s: State, id: string): (r: State)
    ensures forall n :: n in r.notifications <==> n in s.notifications && n.id != id
    ensures r.theme == s.theme && r.density == s.density && r.sidebarCollapsed == s.sidebarCollapsed && r.config == s.config
  {
    s.(notifications := Filter(s.notifications, KeepsNotification(id)))
  }

  /** `clearNotifications` */
  function ClearNotifications(s: State): (r: State)
    ensures r.notifications == []
    ensures r.theme == s.theme && r.density == s.density && r.sidebarCollapsed == s.sidebarCollapsed && r.config == s.config
  {
    s.(notifications := [])
  }

  function Override<T>(patch: Option<T>, current: T): T {
    if patch.Some? then patch.value else current
  }

  /** `updateConfig`: `{ ...config, ...payload }` — the keys present in the payload win, the
      others keep their value; the top-level theme and density are not touched. */
  function UpdateConfig(s: State, patch: ConfigPatch): (r: State)
    ensures patch.theme.Some? ==> r.config.theme == patch.theme.value
    ensures patch.theme.None? ==> r.config.theme == s.config.theme
    ensures patch.density.Some? ==> r.config.density == patch.density.value
    ensures patch.density.None? ==> r.config.density == s.config.density
    ensures patch.maxResults.Some? ==> r.config.maxResults == patch.maxResults.value
    ensures patch.maxResults.None? ==> r.config.maxResults == s.config.maxResults
    ensures patch.queryTimeout.Some? ==> r.config.queryTimeout == patch.queryTimeout.value
    ensures patch.queryTimeout.None? ==> r.config.queryTimeout == s.config.queryTimeout
    ensures patch.autoSave.Some? ==> r.config.autoSave == patch.autoSave.value
    ensures patch.autoSave.None? ==> r.config.autoSave == s.config.autoSave
    ensures r.theme == s.theme && r.density == s.density
    ensures r.sidebarCollapsed == s.sidebarCollapsed && r.notifications == s.notifications
  {
    s.(config := AppConfig(
      Override(patch.theme, s.config.theme),
      Override(patch.density, s.config.density),
      Override(patch.maxResults, s.config.maxResults),
      Override(patch.queryTimeout, s.config.queryTimeout),
      Override(patch.autoSave, s.config.autoSave)))
  }

  // ---------------------------------------------------------------------
  // Properties

  /** Toggling the sidebar twice restores it. */
  lemma ToggleTwice(s: State)
    ensures ToggleSidebar(ToggleSidebar(s)) == s
  {
  }

  /** An empty patch changes nothing. */
  lemma EmptyPatch(s: State)
    ensures UpdateConfig(s, ConfigPatch(None, None, None, None, None)) == s
  {
  }

  /** `updateConfig` keeps the two copies of theme and density in agreement exactly when the
      payload's theme and density (if any) equal the top-level ones. */
  lemma UpdateConfigSync(s: State, patch: ConfigPatch)
    requires InSync(s)
    ensures InSync(UpdateConfig(s, patch)) <==>
      (patch.theme.None? || patch.theme.value == s.theme) &&
      (patch.density.None? || patch.density.value == s.density)
  {
  }

  /** Adding a notification with a new id and removing that id gives back the list. */
  lemma {:induction false} AddThenRemoveNotification(s: State, n: Notification)
    requires forall m :: m in s.notifications ==> m.id != n.id
    ensures RemoveNotification(AddNotification(s, n), n.id).notifications == s.notifications
  {
    FilterConcat(s.notifications, [n], KeepsNotification(n.id));
    forall i | 0 <= i < |s.notifications| ensures KeepsNotification(n.id)(s.notifications[i]) {
      assert s.notifications[i] in s.notifications;
    }
    FilterKeepsAll(s.notifications, KeepsNotification(n.id));
  }

  /** Removal keeps the order of the notifications that stay. */
  lemma RemoveNotificationKeepsOrder(s: State, id: string, older: seq<Notification>, newer: seq<Notification>)
    requires s.notifications == older + newer
    ensures RemoveNotification(s, id).notifications ==
      Filter(older, KeepsNotification(id)) + Filter(newer, KeepsNotification(id))
  {
    FilterConcat(older, newer, KeepsNotification(id));
  }
}

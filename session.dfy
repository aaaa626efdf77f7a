/** The shell's whole observable state as one record, and what each operation of the root
    instance does to it. The `Shell` class is proved to follow these functions. */
module Session {
  import opened Types
  import Bus
  import Badge
  import K = Keyboard

  /** The four overlay flags of the root's data. */
  datatype Overlays = Overlays(
    showNewSubmissionModal: bool,
    showNewCategoryModal: bool,
    showKeyboardShortcutsGuide: bool,
    showMarkdownGuide: bool)

  /** The page-scoped data the loaders read and write. */
  datatype PageData = PageData(
    // Store.page.category / user, the preload snapshot, the root's `submissions`, auth.stats
    pageCategory: Option<Category>,
    preloadCategory: Option<Category>,
    pageUser: Option<User>,
    preloadUser: Option<User>,
    submissions: Option<User>,
    authStats: map<string, int>,
    // Store.state.subscribedCategories, Store.state.moderatingCategories, Store.moderatingCategories
    subscribedCategories: seq<Category>,
    moderatingState: seq<Category>,
    moderatingStore: seq<Category>,
    // Vue.putLS writes
    storageWrites: seq<StorageWrite>)

  datatype State = State(
    // Store.contentRouter: which panel the content region shows
    contentRouter: string,
    overlays: Overlays,
    // document.title
    documentTitle: string,
    // Store.state.notifications and Store.state.contacts
    notifications: seq<Notification>,
    contacts: seq<Contact>,
    // what left the shell: bus topics, HTTP requests, router pushes
    bus: seq<Bus.Topic>,
    requests: seq<Request>,
    routerPushes: seq<string>,
    page: PageData)

  /** An overlay flag that is up stays up, and the shortcuts-guide flag never moves. */
  predicate OnlyOpened(a: Overlays, b: Overlays) {
    && (a.showNewSubmissionModal ==> b.showNewSubmissionModal)
    && (a.showNewCategoryModal ==> b.showNewCategoryModal)
    && (a.showMarkdownGuide ==> b.showMarkdownGuide)
    && b.showKeyboardShortcutsGuide == a.showKeyboardShortcutsGuide
  }

  predicate OverlaysOnlyOpen(s: State, t: State) {
    OnlyOpened(s.overlays, t.overlays)
  }

  /** The panel and bus operations leave the page data, the contacts and the router alone. */
  predicate PageDataUnchanged(s: State, t: State) {
    t.page == s.page && t.contacts == s.contacts && t.routerPushes == s.routerPushes
  }

  /** `closeModals`: the content region goes back to the default panel. */
  function AfterCloseModals(s: State): (t: State)
    ensures t.contentRouter == "content" && Badge.ShowRightSidebar(t.contentRouter)
    ensures t.(contentRouter := s.contentRouter) == s
  {
    s.(contentRouter := "content")
  }

  /** `newRoute`: the panel switches without any announcement. */
  function AfterNewRoute(s: State, route: string): (t: State)
    ensures t.contentRouter == route && t.bus == s.bus
    ensures t.(contentRouter := s.contentRouter) == s
  {
    s.(contentRouter := route)
  }

  /** `showNewSubmission`: only the new-submission flag goes up. */
  function AfterShowNewSubmission(s: State): (t: State)
    ensures t.overlays.showNewSubmissionModal && OverlaysOnlyOpen(s, t)
    ensures t.(overlays := s.overlays) == s
    ensures t.overlays.(showNewSubmissionModal := s.overlays.showNewSubmissionModal) == s.overlays
  {
    s.(overlays := s.overlays.(showNewSubmissionModal := true))
  }

  /** `showNewCategory`: only the new-category flag goes up. */
  function AfterShowNewCategory(s: State): (t: State)
    ensures t.overlays.showNewCategoryModal && OverlaysOnlyOpen(s, t)
    ensures t.(overlays := s.overlays) == s
    ensures t.overlays.(showNewCategoryModal := s.overlays.showNewCategoryModal) == s.overlays
  {
    s.(overlays := s.overlays.(showNewCategoryModal := true))
  }

  /** `openMarkdownGuide`: only the markdown-guide flag goes up. */
  function AfterOpenMarkdownGuide(s: State): (t: State)
    ensures t.overlays.showMarkdownGuide && OverlaysOnlyOpen(s, t)
    ensures t.(overlays := s.overlays) == s
    ensures t.overlays.(showMarkdownGuide := s.overlays.showMarkdownGuide) == s.overlays
  {
    s.(overlays := s.overlays.(showMarkdownGuide := true))
  }

  /** `seenAllNotifications`: the fire-and-forget POST, then the local stamp of every
      unread notification, whatever the POST's fate. */
  function AfterSeenAllNotifications(s: State, now: string): (t: State)
    ensures t.requests == s.requests + [MarkReadPost]
    ensures |t.notifications| == |s.notifications| && Badge.UnreadNotifications(t.notifications) == 0
    ensures forall i :: 0 <= i < |s.notifications| && Truthy(s.notifications[i].readAt) ==>
      t.notifications[i] == s.notifications[i]
    ensures forall i :: 0 <= i < |s.notifications| && !Truthy(s.notifications[i].readAt) ==>
      t.notifications[i] == s.notifications[i].(readAt := Some(now))
    ensures t.(requests := s.requests, notifications := s.notifications) == s
  {
    s.(requests := s.requests + [MarkReadPost],
       notifications := Badge.StampAll(s.notifications, now))
  }

  /** `$emit(topic)`: the topic is delivered to every subscriber; the root's own handler for
      it (lines 103 to 109) runs before the emit returns. Topics whose root handler lies
      outside this file, or that the root does not handle, only reach the log. */
  function AfterEmit(s: State, topic: Bus.Topic, now: string): (t: State)
    ensures |t.bus| > |s.bus| && t.bus[..|s.bus| + 1] == s.bus + [topic]
    ensures OverlaysOnlyOpen(s, t) && PageDataUnchanged(s, t) && t.documentTitle == s.documentTitle
    // the root's subscriptions, each run before the emit returns
    ensures topic == Bus.Close ==> t == s.(bus := s.bus + [topic], contentRouter := "content")
    ensures topic.NewRoute? ==> t == s.(bus := s.bus + [topic], contentRouter := topic.route)
    ensures topic == Bus.Submit ==>
      t == s.(bus := s.bus + [topic], overlays := s.overlays.(showNewSubmissionModal := true))
    ensures topic == Bus.MarkdownGuide ==>
      t == s.(bus := s.bus + [topic], overlays := s.overlays.(showMarkdownGuide := true))
    ensures topic.ChangeRoute? ==>
      t.contentRouter == topic.route && t.bus == s.bus + [topic, Bus.Close] && t.overlays == s.overlays
    ensures topic.ChangeRoute? ==> t == AfterChangeRoute(s.(bus := s.bus + [topic]), topic.route, now)
    // 'change-route' to the notifications panel marks everything read and posts
    ensures topic == Bus.ChangeRoute("notifications") ==>
      t.notifications == Badge.StampAll(s.notifications, now) && t.requests == s.requests + [MarkReadPost]
    ensures topic.ChangeRoute? && topic.route != "notifications" ==>
      t.notifications == s.notifications && t.requests == s.requests
    ensures topic.StartConversation? ==>
      t.contentRouter == "messages" && t.overlays == s.overlays &&
      t.bus == s.bus + [topic, Bus.Close, Bus.Conversation(topic.contact)] &&
      t.notifications == s.notifications && t.requests == s.requests
    // any other topic only reaches the log
    ensures !Bus.RootHandles(topic) ==> t == s.(bus := s.bus + [topic])
    decreases Bus.Rank(topic)
  {
    var logged := s.(bus := s.bus + [topic]);
    match topic
    case StartConversation(c) => AfterStartConversation(logged, c, now)
    case NewRoute(r) => AfterNewRoute(logged, r)
    case Close => AfterCloseModals(logged)
    case Submit => AfterShowNewSubmission(logged)
    case ChangeRoute(r) => AfterChangeRoute(logged, r, now)
    case MarkdownGuide => AfterOpenMarkdownGuide(logged)
    case _ => logged
  }

  /** `changeRoute`: 'close' goes out first (its handler resets the panel), then the panel
      switches, and opening the notifications panel marks every notification read. */
  function AfterChangeRoute(s: State, route: string, now: string): (t: State)
    ensures t.contentRouter == route
    ensures t.bus == s.bus + [Bus.Close]
    ensures t.notifications == if route == "notifications" then Badge.StampAll(s.notifications, now) else s.notifications
    ensures t.requests == s.requests + if route == "notifications" then [MarkReadPost] else []
    ensures t.overlays == s.overlays && t.documentTitle == s.documentTitle && PageDataUnchanged(s, t)
    decreases 1
  {
    var closed := AfterEmit(s, Bus.Close, now);
    var routed := closed.(contentRouter := route);
    if route == "notifications" then AfterSeenAllNotifications(routed, now) else routed
  }

  /** `startConversation`: the messages panel opens and the conversation is announced after 'close'. */
  function AfterStartConversation(s: State, contact: Contact, now: string): (t: State)
    ensures t.contentRouter == "messages"
    ensures t.bus == s.bus + [Bus.Close, Bus.Conversation(contact)]
    ensures t.notifications == s.notifications && t.requests == s.requests
    ensures t.overlays == s.overlays && t.documentTitle == s.documentTitle && PageDataUnchanged(s, t)
    decreases 2
  {
    AfterEmit(AfterChangeRoute(s, "messages", now), Bus.Conversation(contact), now)
  }

  /** `updatePageTitle`: the title is recomputed from the unread total and the base title. */
  function AfterUpdatePageTitle(s: State, base: string, authId: Option<int>): (t: State)
    ensures t.(documentTitle := s.documentTitle) == s
    ensures t.documentTitle ==
      Badge.PageTitle(Badge.UnreadMessages(s.contacts, authId) + Badge.UnreadNotifications(s.notifications), base)
    ensures |t.documentTitle| >= |base| && t.documentTitle[|t.documentTitle| - |base|..] == base
    ensures t.documentTitle == base <==>
      Badge.UnreadMessages(s.contacts, authId) == 0 && Badge.UnreadNotifications(s.notifications) == 0
  {
    var total := Badge.UnreadMessages(s.contacts, authId) + Badge.UnreadNotifications(s.notifications);
    s.(documentTitle := Badge.PageTitle(total, base))
  }

  /** The `created` hook's start-up rule: a non-empty `search` query opens the search panel. */
  function AfterStartup(s: State, searchQuery: Option<string>, now: string): (t: State)
    ensures !Truthy(searchQuery) ==> t == s
    ensures Truthy(searchQuery) ==> t == s.(contentRouter := "search", bus := s.bus + [Bus.Close])
  {
    if Truthy(searchQuery) then AfterChangeRoute(s, "search", now) else s
  }

  /** One call of the keyboard dispatcher. `preventDefault` acts on the DOM event only. */
  function AfterEffect(s: State, e: K.Effect, now: string): (t: State)
    ensures OverlaysOnlyOpen(s, t) && t.page == s.page && t.documentTitle == s.documentTitle
  {
    match e
    case CallCloseModals => AfterCloseModals(s)
    case Emit(topic) => AfterEmit(s, topic, now)
    case CallShowNewSubmission => AfterShowNewSubmission(s)
    case CallShowNewCategory => AfterShowNewCategory(s)
    case CallOpenMarkdownGuide => AfterOpenMarkdownGuide(s)
    case CallChangeRoute(r) => AfterChangeRoute(s, r, now)
    case Push(path) => s.(routerPushes := s.routerPushes + [path])
    case PreventDefault => s
  }

  /** The dispatcher's calls, in order: no key press touches the page data or the title
      (the title follows the counters through watchers, not through the dispatcher). */
  function AfterEffects(s: State, es: seq<K.Effect>, now: string): (t: State)
    ensures t.page == s.page && t.documentTitle == s.documentTitle
    decreases |es|
  {
    if es == [] then s else AfterEffects(AfterEffect(s, es[0], now), es[1..], now)
  }

  lemma AfterOneEffect(s: State, a: K.Effect, now: string)
    ensures AfterEffects(s, [a], now) == AfterEffect(s, a, now)
  {
    assert [a][1..] == [];
  }

  lemma AfterTwoEffects(s: State, a: K.Effect, b: K.Effect, now: string)
    ensures AfterEffects(s, [a, b], now) == AfterEffect(AfterEffect(s, a, now), b, now)
  {
    assert [a, b][1..] == [b];
    AfterOneEffect(AfterEffect(s, a, now), b, now);
  }

  /** Running two call lists one after the other is running their concatenation. */
  lemma {:induction false} AfterEffectsAppend(s: State, a: seq<K.Effect>, b: seq<K.Effect>, now: string)
    ensures AfterEffects(s, a + b, now) == AfterEffects(AfterEffects(s, a, now), b, now)
    decreases |a|
  {
    if a != [] {
      assert (a + b)[0] == a[0];
      assert (a + b)[1..] == a[1..] + b;
      AfterEffectsAppend(AfterEffect(s, a[0], now), a[1..], b, now);
    } else {
      assert a + b == b;
    }
  }

  /** No key press ever closes an overlay, and none opens the shortcuts guide: nothing in the
      controller resets the overlay flags. */
  lemma {:induction false} EffectsOnlyOpenOverlays(s: State, es: seq<K.Effect>, now: string)
    ensures OverlaysOnlyOpen(s, AfterEffects(s, es, now))
    decreases |es|
  {
    if es != [] {
      EffectsOnlyOpenOverlays(AfterEffect(s, es[0], now), es[1..], now);
    }
  }

  /** Esc resets the panel to 'content' and logs 'pressed-esc', typing or not, and changes nothing else. */
  lemma EscapeResetsPanel(s: State, e: K.KeyEvent, ctx: K.KeyContext, now: string)
    requires e.keyCode == K.Esc
    ensures AfterEffects(s, K.KeydownEffects(e, ctx), now)
      == s.(contentRouter := "content", bus := s.bus + [Bus.PressedEsc])
  {
    AfterTwoEffects(s, K.CallCloseModals, K.Emit(Bus.PressedEsc), now);
  }

  /** While a text field has focus, any key but Esc leaves the whole state as it was. */
  lemma TypingChangesNothing(s: State, e: K.KeyEvent, ctx: K.KeyContext, now: string)
    requires ctx.typing && e.keyCode != K.Esc
    ensures AfterEffects(s, K.KeydownEffects(e, ctx), now) == s
  {
  }

  /** For a guest the members-only keys leave the whole state as it was. */
  lemma GuestMembersKeysChangeNothing(s: State, e: K.KeyEvent, ctx: K.KeyContext, now: string)
    requires ctx.isGuest && K.MembersOnly(e.keyCode)
    ensures AfterEffects(s, K.KeydownEffects(e, ctx), now) == s
  {
  }

  /** 'n' for a signed-in user outside a text field opens the notifications panel and clears
      the unread count. */
  lemma NotificationsKeyMarksRead(s: State, e: K.KeyEvent, ctx: K.KeyContext, now: string)
    requires !ctx.typing && !ctx.isGuest && e.keyCode == K.KeyN
    ensures var t := AfterEffects(s, K.KeydownEffects(e, ctx), now);
      && t.contentRouter == "notifications"
      && Badge.UnreadNotifications(t.notifications) == 0
      && t.bus == s.bus + [Bus.Close]
      && t.requests == s.requests + [MarkReadPost]
  {
    K.MembersKeys(e, ctx);
    AfterOneEffect(s, K.CallChangeRoute("notifications"), now);
  }

  /** `changeRoute` marks notifications read exactly when it opens the notifications panel. */
  lemma ChangeRouteMarksReadIff(s: State, route: string, now: string)
    requires Badge.UnreadNotifications(s.notifications) > 0
    ensures Badge.UnreadNotifications(AfterChangeRoute(s, route, now).notifications) == 0
      <==> route == "notifications"
  {
  }

  /** The right sidebar shows after `changeRoute` exactly when the new panel is not one of the
      three full-width panels, and always after `closeModals`. */
  lemma SidebarFollowsPanel(s: State, route: string, now: string)
    ensures Badge.ShowRightSidebar(AfterChangeRoute(s, route, now).contentRouter)
      <==> route !in {"notifications", "messages", "search"}
    ensures Badge.ShowRightSidebar(AfterCloseModals(s).contentRouter)
  {
  }

  /** Updating the title twice is the same as once, and the old title plays no part. */
  lemma UpdatePageTitleIdempotent(s: State, base: string, authId: Option<int>, staleTitle: string)
    ensures AfterUpdatePageTitle(AfterUpdatePageTitle(s, base, authId), base, authId)
      == AfterUpdatePageTitle(s, base, authId)
    ensures AfterUpdatePageTitle(s.(documentTitle := staleTitle), base, authId)
      == AfterUpdatePageTitle(s, base, authId)
  {
  }

  /** After the notifications panel opens, the title badge shows the unread messages only. */
  lemma TitleAfterNotificationsPanel(s: State, base: string, authId: Option<int>, now: string)
    ensures AfterUpdatePageTitle(AfterChangeRoute(s, "notifications", now), base, authId).documentTitle
      == Badge.PageTitle(Badge.UnreadMessages(s.contacts, authId), base)
  {
    var t := AfterChangeRoute(s, "notifications", now);
    assert t.contacts == s.contacts;
    assert Badge.UnreadNotifications(t.notifications) == 0;
  }
}

/** The root Vue instance: its data, the Store fields it writes, and its methods. */
module Shell {
  import opened Types
  import Bus
  import Badge
  import K = Keyboard
  import Session
  import PageLoad

  class Shell {
    // the root's data (lines 59 to 65) and Store.contentRouter
    var contentRouter: string
    var showNewSubmissionModal: bool
    var showNewCategoryModal: bool
    var showKeyboardShortcutsGuide: bool
    var showMarkdownGuide: bool
    /** `document.title` as it was when the shell started; never reassigned. */
    const pageTitle: string
    var documentTitle: string
    /** `auth.id`; a guest may have none. */
    const authId: Option<int>
    // Store.state
    const notifications: array<Notification>
    var contacts: seq<Contact>
    const subscribedCategories: array<Category>
    const moderatingState: array<Category>   // Store.state.moderatingCategories
    const moderatingStore: array<Category>   // Store.moderatingCategories
    // page data
    var pageCategory: Option<Category>
    var preloadCategory: Option<Category>
    var pageUser: Option<User>
    var preloadUser: Option<User>
    var submissions: Option<User>
    var authStats: map<string, int>
    // what the shell sent out: bus topics, HTTP requests, router pushes, local-storage writes
    var bus: seq<Bus.Topic>
    var requests: seq<Request>
    var routerPushes: seq<string>
    var storageWrites: seq<StorageWrite>

    /** The three category lists are separate arrays. */
    ghost predicate Valid()
      reads this
    {
      && subscribedCategories != moderatingState
      && subscribedCategories != moderatingStore
      && moderatingState != moderatingStore
    }

    ghost function State(): Session.State
      reads this, notifications, subscribedCategories, moderatingState, moderatingStore
    {
      Session.State(contentRouter,
        Session.Overlays(showNewSubmissionModal, showNewCategoryModal,
          showKeyboardShortcutsGuide, showMarkdownGuide),
        documentTitle, notifications[..], contacts, bus, requests, routerPushes,
        Session.PageData(pageCategory, preloadCategory, pageUser, preloadUser, submissions, authStats,
          subscribedCategories[..], moderatingState[..], moderatingStore[..], storageWrites))
    }

    /** The root's data block: every overlay closed, the base title captured from the document. */
    constructor (title: string, auth: Option<int>, router: string, notes: array<Notification>,
                 contactList: seq<Contact>, subscribed: array<Category>,
                 moderating: array<Category>, moderatingTop: array<Category>,
                 cachedCategory: Option<Category>, preloadedCategory: Option<Category>,
                 cachedUser: Option<User>, preloadedUser: Option<User>, stats: map<string, int>)
      requires subscribed != moderating && subscribed != moderatingTop && moderating != moderatingTop
      ensures Valid()
      ensures pageTitle == title && authId == auth
      ensures notifications == notes && subscribedCategories == subscribed
      ensures moderatingState == moderating && moderatingStore == moderatingTop
      ensures State() == Session.State(router, Session.Overlays(false, false, false, false), title,
        notes[..], contactList, [], [], [],
        Session.PageData(cachedCategory, preloadedCategory, cachedUser, preloadedUser, None, stats,
          subscribed[..], moderating[..], moderatingTop[..], []))
    {
      contentRouter := router;
      showNewSubmissionModal, showNewCategoryModal := false, false;
      showKeyboardShortcutsGuide, showMarkdownGuide := false, false;
      pageTitle, documentTitle := title, title;
      authId := auth;
      notifications, contacts := notes, contactList;
      subscribedCategories, moderatingState, moderatingStore := subscribed, moderating, moderatingTop;
      pageCategory, preloadCategory := cachedCategory, preloadedCategory;
      pageUser, preloadUser, submissions, authStats := cachedUser, preloadedUser, None, stats;
      bus, requests, routerPushes, storageWrites := [], [], [], [];
    }

    /** The `created` hook's start-up rule: a `search` query opens the search panel. */
    method Created(searchQuery: Option<string>, now: string)
      modifies this, notifications
      ensures State() == Session.AfterStartup(old(State()), searchQuery, now)
    {
      if searchQuery.Some? && searchQuery.value != "" {
        ChangeRoute("search", now);
      }
    }

    /** The `$route` watcher: every completed navigation closes the panel. */
    method OnRouteChange()
      modifies this
      ensures State() == Session.AfterCloseModals(old(State()))
    {
      CloseModals();
    }

    method OpenMarkdownGuide()
      modifies this
      ensures State() == Session.AfterOpenMarkdownGuide(old(State()))
    {
      showMarkdownGuide := true;
    }

    method ShowNewSubmission()
      modifies this
      ensures State() == Session.AfterShowNewSubmission(old(State()))
    {
      showNewSubmissionModal := true;
    }

    method ShowNewCategory()
      modifies this
      ensures State() == Session.AfterShowNewCategory(old(State()))
    {
      showNewCategoryModal := true;
    }

    method NewRoute(route: string)
      modifies this
      ensures State() == Session.AfterNewRoute(old(State()), route)
    {
      contentRouter := route;
    }

    method CloseModals()
      modifies this
      ensures State() == Session.AfterCloseModals(old(State()))
    {
      contentRouter := "content";
    }

    /** `$emit` from the root: log the topic, then run the root's own subscriber for it. */
    method Emit(topic: Bus.Topic, now: string)
      modifies this, notifications
      ensures State() == Session.AfterEmit(old(State()), topic, now)
      decreases Bus.Rank(topic)
    {
      bus := bus + [topic];
      match topic
      case StartConversation(c) => StartConversation(c, now);
      case NewRoute(r) => NewRoute(r);
      case Close => CloseModals();
      case Submit => ShowNewSubmission();
      case ChangeRoute(r) => ChangeRoute(r, now);
      case MarkdownGuide => OpenMarkdownGuide();
      case _ =>
    }

    method StartConversation(contact: Contact, now: string)
      modifies this, notifications
      ensures State() == Session.AfterStartConversation(old(State()), contact, now)
      decreases 2
    {
      ChangeRoute("messages", now);
      Emit(Bus.Conversation(contact), now);
    }

    method ChangeRoute(route: string, now: string)
      modifies this, notifications
      ensures State() == Session.AfterChangeRoute(old(State()), route, now)
      decreases 1
    {
      Emit(Bus.Close, now);
      contentRouter := route;
      if route == "notifications" {
        SeenAllNotifications(now);
      }
    }

    /** Sends the mark-read POST without waiting for it, then stamps every unread
        notification in place. */
    method SeenAllNotifications(now: string)
      modifies this, notifications
      ensures State() == Session.AfterSeenAllNotifications(old(State()), now)
    {
      requests := requests + [MarkReadPost];
      var i := 0;
      while i < notifications.Length
        modifies notifications
        invariant 0 <= i <= notifications.Length
        invariant forall k :: 0 <= k < i ==> notifications[k] == Badge.Stamp(old(notifications[k]), now)
        invariant forall k :: i <= k < notifications.Length ==> notifications[k] == old(notifications[k])
      {
        if !Truthy(notifications[i].readAt) {
          notifications[i] := notifications[i].(readAt := Some(now));
        }
        i := i + 1;
      }
      assert notifications[..] == Badge.StampAll(old(notifications[..]), now);
    }

    method UpdatePageTitle()
      modifies this
      ensures State() == Session.AfterUpdatePageTitle(old(State()), pageTitle, authId)
    {
      var total := Badge.UnreadMessages(contacts, authId) + Badge.UnreadNotifications(notifications[..]);
      if total > 0 {
        documentTitle := "(" + Badge.Decimal(total) + ") " + pageTitle;
      } else {
        documentTitle := pageTitle;
      }
    }

    /** The `switch (event.keyCode)` of `keydown`. */
    method KeySwitch(keyCode: int, ctx: K.KeyContext, now: string) returns (prevented: bool)
      modifies this, notifications
      ensures State() == Session.AfterEffects(old(State()), K.SwitchEffects(keyCode, ctx), now)
      ensures prevented <==> K.PreventDefault in K.SwitchEffects(keyCode, ctx)
    {
      ghost var s0 := State();
      prevented := false;
      if keyCode == K.KeyN || keyCode == K.KeyM || keyCode == K.Slash {
        prevented := RouteKey(keyCode, ctx, now);
      } else if !ctx.isGuest && (keyCode == K.KeyB || keyCode == K.KeyP) {
        var path := if keyCode == K.KeyB then "/bookmarks" else "/@" + ctx.username;
        routerPushes := routerPushes + [path];
        Session.AfterOneEffect(s0, K.Push(path), now);
      } else if keyCode == K.KeyH {
        routerPushes := routerPushes + ["/"];
        Session.AfterOneEffect(s0, K.Push("/"), now);
      } else if keyCode == K.KeyR {
        if ctx.routeName == "home" {
          Emit(Bus.RefreshHome, now);
          Session.AfterOneEffect(s0, K.Emit(Bus.RefreshHome), now);
        } else if ctx.routeName == "category-submissions" {
          Emit(Bus.RefreshCategorySubmissions, now);
          Session.AfterOneEffect(s0, K.Emit(Bus.RefreshCategorySubmissions), now);
        }
      }
    }

    /** The cases `n`, `m` and `/` of the switch, which change the panel. */
    method RouteKey(keyCode: int, ctx: K.KeyContext, now: string) returns (prevented: bool)
      requires keyCode == K.KeyN || keyCode == K.KeyM || keyCode == K.Slash
      modifies this, notifications
      ensures State() == Session.AfterEffects(old(State()), K.SwitchEffects(keyCode, ctx), now)
      ensures prevented <==> K.PreventDefault in K.SwitchEffects(keyCode, ctx)
    {
      ghost var s0 := State();
      prevented := false;
      if keyCode == K.Slash {
        prevented := true;
        ChangeRoute("search", now);
        Session.AfterTwoEffects(s0, K.PreventDefault, K.CallChangeRoute("search"), now);
      } else if !ctx.isGuest {
        var route := if keyCode == K.KeyN then "notifications" else "messages";
        ChangeRoute(route, now);
        Session.AfterOneEffect(s0, K.CallChangeRoute(route), now);
      }
    }

    /** The global `keydown` listener; the result says whether `preventDefault` was called. */
    method Keydown(e: K.KeyEvent, ctx: K.KeyContext, now: string) returns (prevented: bool)
      modifies this, notifications
      ensures State() == Session.AfterEffects(old(State()), K.KeydownEffects(e, ctx), now)
      ensures prevented <==> K.PreventDefault in K.KeydownEffects(e, ctx)
    {
      ghost var s0 := State();
      ghost var esc: seq<K.Effect> := [];
      prevented := false;
      if e.keyCode == K.Esc {
        CloseModals();
        Emit(Bus.PressedEsc, now);
        esc := [K.CallCloseModals, K.Emit(Bus.PressedEsc)];
        Session.AfterTwoEffects(s0, esc[0], esc[1], now);
      }
      ghost var s1 := State();
      ghost var rest: seq<K.Effect> := [];
      if ctx.typing {
      } else if e.altKey && e.keyCode == K.KeyS {
        ShowNewSubmission();
        rest := [K.CallShowNewSubmission];
        Session.AfterOneEffect(s1, rest[0], now);
      } else if e.altKey && e.keyCode == K.KeyC {
        ShowNewCategory();
        rest := [K.CallShowNewCategory];
        Session.AfterOneEffect(s1, rest[0], now);
      } else if e.shiftKey && e.keyCode == K.Slash {
        OpenMarkdownGuide();
        rest := [K.CallOpenMarkdownGuide];
        Session.AfterOneEffect(s1, rest[0], now);
      } else {
        prevented := KeySwitch(e.keyCode, ctx, now);
        rest := K.SwitchEffects(e.keyCode, ctx);
      }
      assert K.KeydownEffects(e, ctx) == esc + rest;
      Session.AfterEffectsAppend(s0, esc, rest, now);
    }

    /** One invocation of `getCategoryStore(name)` while the route's `name` parameter is
        `routeName`; a request it sends settles as `outcome`. The result says whether the
        response handler threw. */
    method GetCategoryStore(name: string, routeName: string, outcome: FetchResult<Category>)
      returns (threw: bool)
      requires Valid()
      modifies this, subscribedCategories, moderatingStore
      ensures State() == PageLoad.AfterGetCategoryStore(old(State()), name, routeName, outcome)
      ensures threw == PageLoad.CategoryHandlerThrows(old(State()), routeName, outcome)
    {
      threw := false;
      if preloadCategory.Some? && preloadCategory.value.name == routeName {
        pageCategory := preloadCategory;
        preloadCategory := None;
      } else if pageCategory.None? || pageCategory.value.name != routeName {
        threw := FetchCategory(name, outcome);
      }
    }

    /** The request of line 188 and its handlers. */
    method FetchCategory(name: string, outcome: FetchResult<Category>) returns (threw: bool)
      requires Valid()
      modifies this`requests, this`routerPushes, this`pageCategory, this`storageWrites,
        subscribedCategories, moderatingStore
      ensures State() == PageLoad.AfterCategoryFetch(old(State()), name, outcome)
      ensures threw == (outcome.Success? && PageLoad.ModeratingWriteThrows(old(State()).page, outcome.data))
    {
      threw := false;
      requests := requests + [CategoryStoreGet(name)];
      match outcome
      case Success(c) =>
        threw := ApplyCategoryResponse(c);
      case NotFound =>
        routerPushes := routerPushes + ["/404"];
      case OtherError =>
    }

    /** The `then` handler of the category request (lines 191 to 213). */
    method ApplyCategoryResponse(c: Category) returns (threw: bool)
      requires Valid()
      modifies this`pageCategory, this`storageWrites, subscribedCategories, moderatingStore
      ensures State() == old(State()).(page := PageLoad.AfterCategoryResponse(old(State()).page, c))
      ensures threw == PageLoad.ModeratingWriteThrows(old(State()).page, c)
    {
      ghost var p0 := State().page;
      pageCategory := Some(c);
      ghost var p1 := State().page;
      assert p1 == p0.(pageCategory := Some(c));
      RefreshSubscribed(c);
      ghost var p2 := State().page;
      assert p2 == PageLoad.AfterSubscribedRefresh(p1, c);
      assert p2.moderatingState == p0.moderatingState && p2.moderatingStore == p0.moderatingStore;
      threw := RefreshModerating(c);
    }

    /** Lines 200 to 205: the first subscribed entry with the category's id takes the
        fetched avatar when it differs, and the list is persisted. */
    method RefreshSubscribed(c: Category)
      requires Valid()
      modifies this`storageWrites, subscribedCategories
      ensures State() == old(State()).(page := PageLoad.AfterSubscribedRefresh(old(State()).page, c))
    {
      var i := PageLoad.FindIndex(subscribedCategories[..], c.id);
      if i != -1 && subscribedCategories[i].avatar != c.avatar {
        subscribedCategories[i] := subscribedCategories[i].(avatar := c.avatar);
        storageWrites := storageWrites + [StorageWrite("subscribedCategories", subscribedCategories[..])];
      }
    }

    /** Lines 208 to 213 as written: the position is looked up in `Store.state.moderatingCategories`,
        the avatar read and written in `Store.moderatingCategories`; the result says whether
        that read ran past the end of the list and threw. */
    method RefreshModerating(c: Category) returns (threw: bool)
      requires Valid()
      modifies this`storageWrites, moderatingStore
      ensures State() == old(State()).(page := PageLoad.AfterModeratingRefresh(old(State()).page, c))
      ensures threw == PageLoad.ModeratingWriteThrows(old(State()).page, c)
    {
      threw := false;
      var i := PageLoad.FindIndex(moderatingState[..], c.id);
      if i != -1 {
        if i >= moderatingStore.Length {
          threw := true;
          return;
        }
        if moderatingStore[i].avatar != c.avatar {
          moderatingStore[i] := moderatingStore[i].(avatar := c.avatar);
          storageWrites := storageWrites + [StorageWrite("moderatingCategories", moderatingStore[..])];
        }
      }
    }

    /** One invocation of `getUserStore` for the route's `username`; a request it sends
        settles as `outcome`. */
    method GetUserStore(username: string, outcome: FetchResult<User>)
      modifies this
      ensures State() == PageLoad.AfterGetUserStore(old(State()), username, authId, outcome)
    {
      if preloadUser.Some? {
        submissions := preloadUser;
        SetPageUser(preloadUser.value);
        preloadUser := None;
        return;
      }
      requests := requests + [UserStoreGet(username)];
      match outcome
      case Success(u) =>
        SetPageUser(u);
      case NotFound =>
        routerPushes := routerPushes + ["/404"];
      case OtherError =>
    }

    /** `Store.page.user = u`, and the signed-in user's stats follow their own page. */
    method SetPageUser(u: User)
      modifies this`pageUser, this`authStats
      ensures State() == old(State()).(page := PageLoad.AfterUserData(old(State()).page, u, authId))
    {
      pageUser := Some(u);
      if IsAuthUser(u.id, authId) {
        authStats := u.stats;
      }
    }
  }
}

/** What `getCategoryStore` and `getUserStore` do to the shell state for one invocation,
    with the server's answer given as an input. */
module PageLoad {
  import opened Types
  import Session

  /** `findIndex(ob => ob.id === id)`: the first position holding the id, or -1. */
  function FindIndex(cats: seq<Category>, id: int): (i: int)
    ensures -1 <= i < |cats|
    ensures i >= 0 ==> cats[i].id == id && forall j :: 0 <= j < i ==> cats[j].id != id
    ensures i == -1 <==> forall j :: 0 <= j < |cats| ==> cats[j].id != id
  {
    if cats == [] then -1
    else if cats[0].id == id then 0
    else
      var k := FindIndex(cats[1..], id);
      if k == -1 then -1 else k + 1
  }

  /** Where the category page's data comes from. */
  datatype CategorySource = FromPreload | FromCache | FromServer

  /** Line 179 first: a preload snapshot named like the route's `name` parameter wins; then
      line 185: a cached category with that name means nothing is fetched. */
  function CategorySourceOf(s: Session.State, routeName: string): (src: CategorySource)
    // the preload wins whenever it names the route, whatever the cache holds
    ensures src == FromPreload <==> s.page.preloadCategory.Some? && s.page.preloadCategory.value.name == routeName
    // a fetch happens exactly when neither the preload nor the cache names the route
    ensures src == FromServer <==>
      !(s.page.preloadCategory.Some? && s.page.preloadCategory.value.name == routeName) &&
      !(s.page.pageCategory.Some? && s.page.pageCategory.value.name == routeName)
  {
    if s.page.preloadCategory.Some? && s.page.preloadCategory.value.name == routeName then FromPreload
    else if s.page.pageCategory.Some? && s.page.pageCategory.value.name == routeName then FromCache
    else FromServer
  }

  /** The first entry of `cats` with the category's id shows an older avatar. */
  predicate AvatarStale(cats: seq<Category>, c: Category)
    ensures AvatarStale(cats, c) ==> exists k :: 0 <= k < |cats| && cats[k].id == c.id && cats[k].avatar != c.avatar
    // only the first match is compared: a later entry with the id and an older avatar does not count
    ensures (forall k :: 0 <= k < |cats| && cats[k].id == c.id ==> cats[k].avatar == c.avatar) ==> !AvatarStale(cats, c)
  {
    var i := FindIndex(cats, c.id);
    i != -1 && cats[i].avatar != c.avatar
  }

  /** The subscribed list after the response: only the first entry with the category's id
      can change, and only its avatar. */
  function RefreshAvatar(cats: seq<Category>, c: Category): (r: seq<Category>)
    ensures |r| == |cats|
    ensures forall k :: 0 <= k < |cats| && k != FindIndex(cats, c.id) ==> r[k] == cats[k]
    ensures r != cats <==> AvatarStale(cats, c)
    ensures forall k :: 0 <= k < |cats| ==> r[k].id == cats[k].id && r[k].name == cats[k].name
    ensures forall k :: 0 <= k < |cats| && r[k] != cats[k] ==> r[k].id == c.id && r[k].avatar == c.avatar
  {
    var i := FindIndex(cats, c.id);
    if AvatarStale(cats, c) then cats[i := cats[i].(avatar := c.avatar)] else cats
  }

  /** Lines 200 to 205: refresh the subscribed list and persist it when it changed. */
  function AfterSubscribedRefresh(p: Session.PageData, c: Category): (q: Session.PageData)
    ensures q.subscribedCategories == RefreshAvatar(p.subscribedCategories, c)
    ensures q.moderatingState == p.moderatingState && q.moderatingStore == p.moderatingStore
    // the list is persisted exactly when it changed
    ensures q.storageWrites == p.storageWrites +
      if AvatarStale(p.subscribedCategories, c)
      then [StorageWrite("subscribedCategories", RefreshAvatar(p.subscribedCategories, c))] else []
    ensures q.(subscribedCategories := p.subscribedCategories, storageWrites := p.storageWrites) == p
  {
    if AvatarStale(p.subscribedCategories, c) then
      var l := RefreshAvatar(p.subscribedCategories, c);
      p.(subscribedCategories := l,
         storageWrites := p.storageWrites + [StorageWrite("subscribedCategories", l)])
    else p
  }

  /** Line 210 indexes `Store.moderatingCategories` with a position found in
      `Store.state.moderatingCategories`; past its end the read of `.avatar` throws. */
  predicate ModeratingWriteThrows(p: Session.PageData, c: Category)
    // only a `Store.moderatingCategories` shorter than `Store.state.moderatingCategories` can throw
    ensures ModeratingWriteThrows(p, c) ==> |p.moderatingStore| < |p.moderatingState|
    ensures ModeratingWriteThrows(p, c) ==> exists k :: 0 <= k < |p.moderatingState| && p.moderatingState[k].id == c.id
  {
    var i := FindIndex(p.moderatingState, c.id);
    i != -1 && i >= |p.moderatingStore|
  }

  /** Lines 208 to 213, as written: the position comes from one list, the read, the write
      and the persisted value from the other. */
  function AfterModeratingRefresh(p: Session.PageData, c: Category): (q: Session.PageData)
    ensures |q.moderatingStore| == |p.moderatingStore|
    // only the entry at the position found in the other list can change, and only its avatar
    ensures forall k :: 0 <= k < |p.moderatingStore| && k != FindIndex(p.moderatingState, c.id) ==>
      q.moderatingStore[k] == p.moderatingStore[k]
    ensures 0 <= FindIndex(p.moderatingState, c.id) < |p.moderatingStore| ==>
      var i := FindIndex(p.moderatingState, c.id);
      q.moderatingStore[i] == p.moderatingStore[i].(avatar := c.avatar)
    // the list is persisted exactly when it changed
    ensures q.storageWrites == p.storageWrites +
      if q.moderatingStore != p.moderatingStore then [StorageWrite("moderatingCategories", q.moderatingStore)] else []
    ensures q.(moderatingStore := p.moderatingStore, storageWrites := p.storageWrites) == p
  {
    var i := FindIndex(p.moderatingState, c.id);
    if i != -1 && i < |p.moderatingStore| && p.moderatingStore[i].avatar != c.avatar then
      var l := p.moderatingStore[i := p.moderatingStore[i].(avatar := c.avatar)];
      p.(moderatingStore := l,
         storageWrites := p.storageWrites + [StorageWrite("moderatingCategories", l)])
    else p
  }

  /** The `then` handler: the cache takes the response, then both lists are refreshed. */
  function AfterCategoryResponse(p: Session.PageData, c: Category): (q: Session.PageData)
    ensures q.pageCategory == Some(c)
    ensures q.subscribedCategories == RefreshAvatar(p.subscribedCategories, c)
    ensures q.moderatingStore == AfterModeratingRefresh(p, c).moderatingStore
    // the subscribed list is saved first, then the moderating list, each only when it changed
    ensures q.storageWrites == p.storageWrites
      + (if AvatarStale(p.subscribedCategories, c)
         then [StorageWrite("subscribedCategories", RefreshAvatar(p.subscribedCategories, c))] else [])
      + (if q.moderatingStore != p.moderatingStore
         then [StorageWrite("moderatingCategories", q.moderatingStore)] else [])
    ensures q.(pageCategory := p.pageCategory, subscribedCategories := p.subscribedCategories,
               moderatingStore := p.moderatingStore, storageWrites := p.storageWrites) == p
  {
    AfterModeratingRefresh(AfterSubscribedRefresh(p.(pageCategory := Some(c)), c), c)
  }

  /** One invocation of `getCategoryStore(name)` on a route whose `name` parameter is
      `routeName`, the request (if any) settling as `outcome`. */
  function AfterGetCategoryStore(s: Session.State, name: string, routeName: string,
                                 outcome: FetchResult<Category>): (t: Session.State)
    // exactly one fetch, for the argument, when neither preload nor cache matches the route; none otherwise
    ensures t.requests == s.requests + if CategorySourceOf(s, routeName) == FromServer then [CategoryStoreGet(name)] else []
    // a preload hit moves the snapshot into the cache and discards it
    ensures CategorySourceOf(s, routeName) == FromPreload ==>
      t == s.(page := s.page.(pageCategory := s.page.preloadCategory, preloadCategory := None))
    // a cache hit changes nothing
    ensures CategorySourceOf(s, routeName) == FromCache ==> t == s
    // the cache is assigned only from the preload or from a successful response
    ensures t.page.pageCategory != s.page.pageCategory ==>
      CategorySourceOf(s, routeName) == FromPreload || (outcome.Success? && t.page.pageCategory == Some(outcome.data))
    // '/404' is pushed exactly for a fetch that came back not-found
    ensures t.routerPushes == s.routerPushes +
      if CategorySourceOf(s, routeName) == FromServer && outcome.NotFound? then ["/404"] else []
    // the panel, the overlays, the notifications and the bus are not touched
    ensures t.contentRouter == s.contentRouter && t.notifications == s.notifications && t.bus == s.bus
    ensures t.overlays == s.overlays && t.contacts == s.contacts && t.documentTitle == s.documentTitle
    // a response or a failure leaves the preload and the user data alone
    ensures CategorySourceOf(s, routeName) == FromServer ==>
      && t.page.preloadCategory == s.page.preloadCategory && t.page.pageUser == s.page.pageUser
      && t.page.preloadUser == s.page.preloadUser && t.page.submissions == s.page.submissions
      && t.page.authStats == s.page.authStats && t.page.moderatingState == s.page.moderatingState
    // only a successful response changes page data
    ensures !outcome.Success? ==> CategorySourceOf(s, routeName) == FromPreload || t.page == s.page
    // a successful response refreshes both lists
    ensures CategorySourceOf(s, routeName) == FromServer && outcome.Success? ==>
      t.page == AfterCategoryResponse(s.page, outcome.data)
  {
    match CategorySourceOf(s, routeName)
    case FromPreload => s.(page := s.page.(pageCategory := s.page.preloadCategory, preloadCategory := None))
    case FromCache => s
    case FromServer => AfterCategoryFetch(s, name, outcome)
  }

  /** Lines 188 to 219: the request for `name` is sent and settles as `outcome`. */
  function AfterCategoryFetch(s: Session.State, name: string, outcome: FetchResult<Category>): (t: Session.State)
    ensures t.requests == s.requests + [CategoryStoreGet(name)]
    ensures t.routerPushes == s.routerPushes + if outcome.NotFound? then ["/404"] else []
    ensures t.page == if outcome.Success? then AfterCategoryResponse(s.page, outcome.data) else s.page
    ensures t.(requests := s.requests, routerPushes := s.routerPushes, page := s.page) == s
  {
    var sent := s.(requests := s.requests + [CategoryStoreGet(name)]);
    match outcome
    case Success(c) => sent.(page := AfterCategoryResponse(sent.page, c))
    case NotFound => sent.(routerPushes := sent.routerPushes + ["/404"])
    case OtherError => sent
  }

  /** The response handler of `getCategoryStore` throws (and stops) in the moderating step. */
  predicate CategoryHandlerThrows(s: Session.State, routeName: string, outcome: FetchResult<Category>) {
    CategorySourceOf(s, routeName) == FromServer && outcome.Success? && ModeratingWriteThrows(s.page, outcome.data)
  }

  /** After a successful fetch the subscribed list keeps its length, ids and names, and an
      entry changes only to take the fetched avatar, at the first position holding the
      fetched id, when that avatar was different. */
  lemma SubscribedRefreshedOnlyWhereStale(s: Session.State, name: string, routeName: string, c: Category)
    requires CategorySourceOf(s, routeName) == FromServer
    ensures var t := AfterGetCategoryStore(s, name, routeName, Success(c));
      && t.page.pageCategory == Some(c)
      && t.page.subscribedCategories == RefreshAvatar(s.page.subscribedCategories, c)
      && (t.page.subscribedCategories != s.page.subscribedCategories <==> AvatarStale(s.page.subscribedCategories, c))
  {
  }

  /** A not-found answer leaves the cache, the preload and both lists untouched. */
  lemma CategoryNotFoundKeepsCache(s: Session.State, name: string, routeName: string)
    requires CategorySourceOf(s, routeName) == FromServer
    ensures var t := AfterGetCategoryStore(s, name, routeName, NotFound);
      && t.page.pageCategory == s.page.pageCategory && t.page.preloadCategory == s.page.preloadCategory
      && t.page.subscribedCategories == s.page.subscribedCategories && t.page.moderatingStore == s.page.moderatingStore
      && t.routerPushes == s.routerPushes + ["/404"]
  {
  }

  /** The moderating step as written: a category found in `Store.state.moderatingCategories`
      is never written back there; only `Store.moderatingCategories` can change. */
  lemma ModeratingStateNeverWritten(s: Session.State, name: string, routeName: string,
                                    outcome: FetchResult<Category>)
    ensures AfterGetCategoryStore(s, name, routeName, outcome).page.moderatingState == s.page.moderatingState
  {
  }

  /** The check of line 185 compares the cache with the route while line 188 fetches the
      argument: with a matching cache nothing is fetched even for a different argument, and
      without one the request carries the argument, not the route's name. */
  lemma CacheCheckUsesRouteFetchUsesArgument(s: Session.State, name: string, routeName: string,
                                             outcome: FetchResult<Category>)
    requires name != routeName
    ensures CategorySourceOf(s, routeName) == FromServer ==>
      AfterGetCategoryStore(s, name, routeName, outcome).requests == s.requests + [CategoryStoreGet(name)]
    ensures CategorySourceOf(s, routeName) == FromCache ==>
      AfterGetCategoryStore(s, name, routeName, outcome) == s
  {
  }

  /** `auth.stats` follows a loaded user page when it is the signed-in user's own. */
  function AfterUserData(p: Session.PageData, u: User, authId: Option<int>): (q: Session.PageData)
    ensures q.pageUser == Some(u)
    ensures IsAuthUser(u.id, authId) ==> q.authStats == u.stats
    ensures q.authStats != p.authStats ==> IsAuthUser(u.id, authId)
    ensures q.(pageUser := p.pageUser, authStats := p.authStats) == p
  {
    p.(pageUser := Some(u), authStats := if IsAuthUser(u.id, authId) then u.stats else p.authStats)
  }

  /** One invocation of `getUserStore` for the route's `username`, the request (if any)
      settling as `outcome`. */
  function AfterGetUserStore(s: Session.State, username: string, authId: Option<int>,
                             outcome: FetchResult<User>): (t: Session.State)
    // the preload is used exactly when there is one, and then nothing is fetched
    ensures t.requests == s.requests + if s.page.preloadUser.None? then [UserStoreGet(username)] else []
    ensures s.page.preloadUser.Some? ==>
      t.page.pageUser == s.page.preloadUser && t.page.submissions == s.page.preloadUser && t.page.preloadUser.None?
    ensures t.page.pageUser != s.page.pageUser ==>
      s.page.preloadUser.Some? || (outcome.Success? && t.page.pageUser == Some(outcome.data))
    // the signed-in user's stats are refreshed only from their own page
    ensures t.page.authStats != s.page.authStats ==> t.page.pageUser.Some? && IsAuthUser(t.page.pageUser.value.id, authId)
    ensures t.routerPushes == s.routerPushes + if s.page.preloadUser.None? && outcome.NotFound? then ["/404"] else []
    ensures t.contentRouter == s.contentRouter && t.notifications == s.notifications && t.bus == s.bus
    ensures t.page.pageCategory == s.page.pageCategory && t.page.subscribedCategories == s.page.subscribedCategories
    ensures t.overlays == s.overlays && t.contacts == s.contacts && t.documentTitle == s.documentTitle
    // a successful fetch shows the response, and the signed-in user's own page refreshes their stats
    ensures s.page.preloadUser.None? && outcome.Success? ==>
      && t.page.pageUser == Some(outcome.data)
      && t.page.authStats == (if IsAuthUser(outcome.data.id, authId) then outcome.data.stats else s.page.authStats)
    ensures s.page.preloadUser.Some? ==>
      t.page.authStats == (if IsAuthUser(s.page.preloadUser.value.id, authId) then s.page.preloadUser.value.stats
                           else s.page.authStats)
    // the category side of the page and the persisted lists are never touched
    ensures t.page.preloadCategory == s.page.preloadCategory && t.page.moderatingState == s.page.moderatingState
    ensures t.page.moderatingStore == s.page.moderatingStore && t.page.storageWrites == s.page.storageWrites
    ensures s.page.preloadUser.None? ==> t.page.submissions == s.page.submissions && t.page.preloadUser.None?
    ensures !(s.page.preloadUser.None? && outcome.Success?) && s.page.preloadUser.None? ==> t.page == s.page
  {
    if s.page.preloadUser.Some? then
      s.(page := AfterUserData(s.page.(submissions := s.page.preloadUser), s.page.preloadUser.value, authId)
                   .(preloadUser := None))
    else
      var sent := s.(requests := s.requests + [UserStoreGet(username)]);
      match outcome
      case Success(u) => sent.(page := AfterUserData(sent.page, u, authId))
      case NotFound => sent.(routerPushes := sent.routerPushes + ["/404"])
      case OtherError => sent
  }

  /** `getUserStore` has no cache check: without a preload it fetches even when the cached
      page user is the one the route names. */
  lemma UserStoreAlwaysFetchesWithoutPreload(s: Session.State, username: string, authId: Option<int>,
                                             outcome: FetchResult<User>)
    requires s.page.preloadUser.None? && s.page.pageUser.Some? && s.page.pageUser.value.username == username
    ensures AfterGetUserStore(s, username, authId, outcome).requests == s.requests + [UserStoreGet(username)]
  {
  }
}

# Voten shell controller in Dafny

This is a model of the root Vue instance of the Voten front end
(`resources/assets/js/vue-codes.js`). It covers the shell that:

- dispatches global keyboard shortcuts;
- switches the main content panel and opens the overlay forms;
- keeps the unread notification and message counters and the `(n) title` badge;
- stamps every notification as read when the notifications panel opens;
- loads the category and user page data, from a preload snapshot, from the cache
  or from the server.

Modules:

- `Types`: the records the shell reads, including notifications (`read_at` is
  `Option<string>`: `None` is `null`, and `Some("")` is falsy but not null),
  contacts, categories, users and the outgoing requests.
- `Bus`: the topics of the event hub.
- `Badge`: the pure parts, namely the two unread counters, `showRightSidebar`,
  JavaScript's decimal rendering of the total, the document title, and the
  mark-as-read stamp as a function of the notification list.
- `Keyboard`: `keydown` as the list of calls it makes (`KeydownEffects`), given
  the event, whether a text field has focus, whether the visitor is a guest, the
  route name and the user name.
- `Session`: the shell's whole state as one value. It has one transition
  function per operation (`AfterChangeRoute`, `AfterEmit`, ...) and the lemmas
  relating them.
- `PageLoad`: one invocation of `getCategoryStore` and `getUserStore`, with the
  server's answer (`Success(data)`, `NotFound` or any other failure) as an input.
- `Shell`: class `Shell`, the imperative controller.
  - Its fields are the root data and the `Store` fields the shell writes.
  - Notifications and the three category lists are arrays, updated in place.
  - Every method states its whole new state as the matching `Session` or
    `PageLoad` function of its old state. The loop in `SeenAllNotifications`
    and the branches of `Keydown` are proved against those functions.

The event hub is modelled as a log of emitted topics. An emit then runs the
root's own subscriber for that topic (lines 103-109) before it returns, as
Vue's `$emit` does. So `changeRoute` logs `close`, resets the panel to
`content` through the `close` handler, and only then switches to the new
panel. Topics whose handlers live elsewhere only reach the log.

Quirks of the code are modelled as written:

- `getCategoryStore` checks the cache against the route's `name` parameter
  (line 185) but fetches its argument (line 188).
- The avatar refresh of the moderating list finds its position in
  `Store.state.moderatingCategories` (line 208), but reads and writes
  `Store.moderatingCategories` (lines 210-212). When that position lies past the
  end of the second list, the `.avatar` read throws inside the response
  handler. The model then stops and reports `threw`.
- `getUserStore` has no cache check at all.
- `showKeyboardShortcutsGuide` is never set, and no operation clears an overlay
  flag.

## Model

| member | source | states |
|---|---|---|
| Badge.UnreadNotifications | resources/assets/js/vue-codes.js:68-70 | the count is at most the list length, and it is zero exactly when every notification has a non-null `read_at` |
| Badge.UnreadNotificationsAppend | resources/assets/js/vue-codes.js:69 | appending a notification raises the count by one exactly when its `read_at` is null |
| Badge.UnreadNotificationsCountsPositions | resources/assets/js/vue-codes.js:69 | the count equals the number of positions whose `read_at` is null (the filter's length) |
| Badge.UnreadMessages | resources/assets/js/vue-codes.js:72-74 | the count is at most the number of contacts, and it is zero exactly when no contact's last message is both from someone other than `auth.id` and unread |
| Badge.UnreadContact | resources/assets/js/vue-codes.js:73 | only a message with no `read_at` counts; with no signed-in user every such message counts; the signed-in user's own last message never counts |
| Badge.UnreadMessagesAppend | resources/assets/js/vue-codes.js:73 | appending a contact raises the count by one exactly when its last message is from someone other than `auth.id` and unread |
| Badge.UnreadMessagesCountsPositions | resources/assets/js/vue-codes.js:73 | the count equals the number of positions holding such an unread conversation (the filter's length) |
| Badge.ShowRightSidebar | resources/assets/js/vue-codes.js:76-78 | the sidebar shows exactly when the panel is none of notifications, messages and search |
| Badge.Stamp | resources/assets/js/vue-codes.js:299-301 | the id is kept and `read_at` is set; a truthy `read_at` is left as it is, a falsy one becomes the time |
| Badge.StampAll | resources/assets/js/vue-codes.js:298-302 | the pass keeps length, order and ids; entries with a truthy `read_at` are untouched; falsy ones get the time; afterwards nothing is unread |
| Badge.StampAllIdempotent | resources/assets/js/vue-codes.js:298-302 | repeating the pass at any later time changes nothing |
| Badge.DecimalDigit | resources/assets/js/vue-codes.js:268 | a digit below ten becomes the character of that digit |
| Badge.Decimal | resources/assets/js/vue-codes.js:268 | the string form of the total is a non-empty run of digits with no leading zero |
| Badge.DecimalRoundTrip | resources/assets/js/vue-codes.js:268 | reading the decimal string back gives the number |
| Badge.PageTitle | resources/assets/js/vue-codes.js:264-272 | the title ends with the base title, equals it exactly when the total is zero, and otherwise starts with `(` and has `) ` just before the base |
| Badge.TitleShowsTotal | resources/assets/js/vue-codes.js:265-268 | for a positive total, the characters between `(` and `) ` are digits that read back as the total |
| Badge.TitleDeterminesTotal | resources/assets/js/vue-codes.js:264-272 | two totals giving the same title are equal (the title is injective in the total) |
| Session.AfterCloseModals | resources/assets/js/vue-codes.js:310-312 | the panel becomes `content`, where the right sidebar shows, and nothing else changes |
| Session.AfterNewRoute | resources/assets/js/vue-codes.js:237-239 | the panel becomes the given route, nothing is emitted, and nothing else changes |
| Session.AfterShowNewSubmission | resources/assets/js/vue-codes.js:246-248 | the new-submission flag is up, no other flag moves, and nothing outside the overlays changes |
| Session.AfterShowNewCategory | resources/assets/js/vue-codes.js:255-257 | the new-category flag is up, no other flag moves, and nothing outside the overlays changes |
| Session.AfterOpenMarkdownGuide | resources/assets/js/vue-codes.js:119-121 | the markdown-guide flag is up, no other flag moves, and nothing outside the overlays changes |
| Session.AfterSeenAllNotifications | resources/assets/js/vue-codes.js:295-303 | one mark-read POST is sent; the list keeps its length; already-read entries are untouched, every other entry becomes itself with `read_at` set to the time; nothing is left unread; nothing else changes |
| Session.AfterUpdatePageTitle | resources/assets/js/vue-codes.js:264-272 | only the title changes, to `Badge.PageTitle` of unread messages plus unread notifications over the base; it ends with the base and equals it exactly when nothing is unread |
| Session.AfterStartup | resources/assets/js/vue-codes.js:113-115 | without a truthy `search` query nothing changes; with one the only changes are the panel, now `search`, and one logged `close` |
| Keyboard.KeydownEffects | resources/assets/js/vue-codes.js:320-385 | Esc always resets the panel and emits `pressed-esc` and does nothing else; while typing nothing else happens; Alt+S, Alt+C and Shift+/ each open their overlay only through that combination; search and `preventDefault` happen exactly for an unshifted `/` outside a text field; members-only keys do nothing for guests |
| Keyboard.SwitchEffects | resources/assets/js/vue-codes.js:346-384 | the switch makes at most two calls; it prevents the default exactly for `/`; members-only keys do nothing for guests; it never closes the panel or opens an overlay |
| Keyboard.SwitchIgnoresModifiers | resources/assets/js/vue-codes.js:331-346 | outside a text field, switch keys other than S, C and `/` act the same with or without Alt and Shift |
| Keyboard.HomeAndSearchForEveryone | resources/assets/js/vue-codes.js:357-368 | `h` pushes `/` and unshifted `/` prevents the default and opens search, for guests too |
| Keyboard.MembersKeys | resources/assets/js/vue-codes.js:347-373 | for a signed-in user outside a text field, `n`, `m`, `b` and `p` make exactly their one call, with or without Alt |
| Keyboard.RefreshFollowsRoute | resources/assets/js/vue-codes.js:374-381 | `r` emits `refresh-home` exactly on `home` and `refresh-category-submissions` exactly on `category-submissions`, and nothing on other routes |
| Keyboard.UnknownKeysIgnored | resources/assets/js/vue-codes.js:382-383 | any other key code makes no call |
| Keyboard.PlainSAndCIgnored | resources/assets/js/vue-codes.js:346-383 | plain `s` and `c` without Alt reach the switch's `default` and make no call |
| Session.AfterEmit | resources/assets/js/vue-codes.js:103-109 | an emit appends its topic to the log first and then runs the root's handler: `close` resets the panel to `content`, `new-route` switches it, `submit` and `markdown-guide` raise their flag, `change-route` is exactly `changeRoute` after the log entry (to `notifications` it stamps every notification and posts; elsewhere notifications and requests stay), `start-conversation` ends on messages after `close` and `conversation` with notifications and requests unchanged; any other topic only reaches the log; page data, contacts, router pushes and the title never change |
| Bus.RootHandles | resources/assets/js/vue-codes.js:103-109 | every topic whose handler emits again is handled by the root; `pressed-esc`, `conversation`, the refresh topics and the topics handled elsewhere are not |
| Session.AfterChangeRoute | resources/assets/js/vue-codes.js:280-288 | the panel ends on the new route after exactly one `close`; the notifications are stamped and the mark-read POST sent exactly when the route is `notifications`; overlays, title and page data are unchanged |
| Session.AfterStartConversation | resources/assets/js/vue-codes.js:227-230 | the messages panel opens, and the log gains `close` then `conversation` with the contact; notifications, requests, overlays, title and page data are unchanged |
| Session.AfterEffect | resources/assets/js/vue-codes.js:320-385 | no single dispatcher call closes an overlay, touches page data or changes the title |
| Session.AfterEffects | resources/assets/js/vue-codes.js:320-385 | a whole list of dispatcher calls leaves page data and the title unchanged |
| Session.AfterOneEffect | resources/assets/js/vue-codes.js:320-385 | one call run as a list is the call itself |
| Session.AfterTwoEffects | resources/assets/js/vue-codes.js:322-325 | two calls run in order |
| Session.AfterEffectsAppend | resources/assets/js/vue-codes.js:320-385 | running two call lists in turn is running their concatenation |
| Session.EffectsOnlyOpenOverlays | resources/assets/js/vue-codes.js:320-385 | no key press closes an overlay or opens the shortcuts guide |
| Session.EscapeResetsPanel | resources/assets/js/vue-codes.js:322-325 | Esc sets the panel to `content` and logs `pressed-esc`, with nothing else changed |
| Session.TypingChangesNothing | resources/assets/js/vue-codes.js:328 | while typing, every key but Esc leaves the state unchanged |
| Session.GuestMembersKeysChangeNothing | resources/assets/js/vue-codes.js:348-370 | for a guest, `n`, `m`, `b` and `p` leave the state unchanged |
| Session.NotificationsKeyMarksRead | resources/assets/js/vue-codes.js:347-351 | `n` (with or without Alt) for a signed-in user outside a text field opens notifications, clears the unread count, emits one `close` and sends one mark-read POST |
| Session.ChangeRouteMarksReadIff | resources/assets/js/vue-codes.js:280-288 | with unread notifications, the count drops to zero exactly when the new route is `notifications` |
| Session.SidebarFollowsPanel | resources/assets/js/vue-codes.js:76-78 | after `changeRoute` the right sidebar shows exactly when the route is none of notifications, messages and search; it always shows after `closeModals` |
| Session.UpdatePageTitleIdempotent | resources/assets/js/vue-codes.js:264-272 | updating the title twice equals updating it once, and the previous title plays no part |
| Session.TitleAfterNotificationsPanel | resources/assets/js/vue-codes.js:86-92 | once the notifications panel opens, the title badge counts only unread messages |
| PageLoad.FindIndex | resources/assets/js/vue-codes.js:196-200 | the result is the first position holding the id, and -1 exactly when no entry has it |
| PageLoad.CategorySourceOf | resources/assets/js/vue-codes.js:179-185 | the preload is used exactly when it names the route; a fetch happens exactly when neither the preload nor the cache names it |
| PageLoad.AvatarStale | resources/assets/js/vue-codes.js:200-202 | a stale avatar implies an entry with the id and another avatar; when every entry with the id already shows the fetched avatar nothing is stale |
| PageLoad.RefreshAvatar | resources/assets/js/vue-codes.js:200-203 | the list keeps its length, ids and names; only the first entry with the id can change, only to the fetched avatar, and it changes exactly when its avatar differed |
| PageLoad.AfterSubscribedRefresh | resources/assets/js/vue-codes.js:200-205 | the subscribed list is the refreshed list; it is saved to storage exactly when it was stale; the moderating lists and all else are unchanged |
| PageLoad.ModeratingWriteThrows | resources/assets/js/vue-codes.js:208-210 | the read can throw only when `Store.moderatingCategories` is shorter than `Store.state.moderatingCategories` and the id occurs in the latter |
| PageLoad.AfterModeratingRefresh | resources/assets/js/vue-codes.js:208-213 | as written: only the entry of `Store.moderatingCategories` at the position of the id in `Store.state.moderatingCategories` can change, it takes the fetched avatar when that position is inside the list, the list keeps its length, it is persisted exactly when it changed, and nothing else changes |
| PageLoad.AfterCategoryResponse | resources/assets/js/vue-codes.js:190-213 | the cache holds the response; the subscribed list is refreshed and the moderating list refreshed as written; the storage log gains the subscribed list when stale, then the moderating list when it changed; nothing else changes |
| PageLoad.AfterGetCategoryStore | resources/assets/js/vue-codes.js:177-220 | exactly one request, for the argument, when neither preload nor cache matches the route; a preload hit moves the snapshot into the cache; a cache hit changes nothing; a successful fetch gives the response handler's page data and any other outcome leaves page data alone; on the fetch path preload, user data and `Store.state.moderatingCategories` are untouched; `/404` is pushed exactly for a not-found fetch; panel, overlays, notifications, bus and title are untouched |
| PageLoad.SubscribedRefreshedOnlyWhereStale | resources/assets/js/vue-codes.js:190-205 | after a successful fetch the cache holds the response, and the subscribed list changes exactly when its matching entry's avatar was stale |
| PageLoad.CategoryNotFoundKeepsCache | resources/assets/js/vue-codes.js:214-218 | a not-found answer leaves cache, preload and both lists alone and pushes `/404` |
| PageLoad.ModeratingStateNeverWritten | resources/assets/js/vue-codes.js:208-212 | `Store.state.moderatingCategories` is never modified |
| PageLoad.CacheCheckUsesRouteFetchUsesArgument | resources/assets/js/vue-codes.js:185-188 | the cache is matched against the route parameter and the request carries the argument |
| PageLoad.AfterCategoryFetch | resources/assets/js/vue-codes.js:186-218 | one request for the argument; `/404` pushed exactly on not-found; page data becomes the response handler's on success and is unchanged otherwise; nothing else changes |
| PageLoad.AfterUserData | resources/assets/js/vue-codes.js:143-147 | the page user is the loaded user; `auth.stats` takes its stats exactly when it is the signed-in user, and nothing else changes |
| PageLoad.AfterGetUserStore | resources/assets/js/vue-codes.js:138-170 | a preload is used exactly when present and then nothing is fetched; a successful fetch shows the response; `auth.stats` takes the loaded stats exactly for the signed-in user's own page; `/404` is pushed exactly for a not-found fetch; without a success or preload page data is unchanged; the category side, the persisted lists and UI state are untouched |
| PageLoad.UserStoreAlwaysFetchesWithoutPreload | resources/assets/js/vue-codes.js:138-158 | without a preload the user is fetched even when the cached page user is the one requested |
| Shell.Shell.constructor | resources/assets/js/vue-codes.js:59-65 | every overlay starts closed and the base title is the document title at start-up |
| Shell.Shell.Created | resources/assets/js/vue-codes.js:113-115 | the new state is the start-up transition of the old one |
| Shell.Shell.OnRouteChange | resources/assets/js/vue-codes.js:82-84 | a navigation resets the panel to `content` |
| Shell.Shell.OpenMarkdownGuide | resources/assets/js/vue-codes.js:119-121 | only the markdown guide flag changes, to true |
| Shell.Shell.ShowNewSubmission | resources/assets/js/vue-codes.js:246-248 | only the new-submission flag changes, to true |
| Shell.Shell.ShowNewCategory | resources/assets/js/vue-codes.js:255-257 | only the new-category flag changes, to true |
| Shell.Shell.NewRoute | resources/assets/js/vue-codes.js:237-239 | only the panel changes, to the given route, with no emit |
| Shell.Shell.CloseModals | resources/assets/js/vue-codes.js:310-312 | only the panel changes, to `content` |
| Shell.Shell.Emit | resources/assets/js/vue-codes.js:103-109 | the new state is `Session.AfterEmit` of the old one |
| Shell.Shell.StartConversation | resources/assets/js/vue-codes.js:227-230 | the new state is `Session.AfterStartConversation` of the old one |
| Shell.Shell.ChangeRoute | resources/assets/js/vue-codes.js:280-288 | the new state is `Session.AfterChangeRoute` of the old one |
| Shell.Shell.SeenAllNotifications | resources/assets/js/vue-codes.js:295-303 | the POST is recorded and the notification array, stamped in place, equals `Badge.StampAll` of its old contents |
| Shell.Shell.UpdatePageTitle | resources/assets/js/vue-codes.js:264-272 | only the document title changes, to `Badge.PageTitle` of the unread total over the base title |
| Shell.Shell.KeySwitch | resources/assets/js/vue-codes.js:346-384 | the switch's calls run in order on the state; the default is prevented exactly when the switch calls `preventDefault` |
| Shell.Shell.RouteKey | resources/assets/js/vue-codes.js:347-360 | the cases `n`, `m` and `/` run their calls as the switch specifies |
| Shell.Shell.Keydown | resources/assets/js/vue-codes.js:320-385 | the state after a key press is `KeydownEffects` run in order; `preventDefault` is called exactly when those calls include it |
| Shell.Shell.GetCategoryStore | resources/assets/js/vue-codes.js:177-220 | the new state is `PageLoad.AfterGetCategoryStore` of the old one; the handler throws exactly when a fetched category's moderating position lies past `Store.moderatingCategories` |
| Shell.Shell.FetchCategory | resources/assets/js/vue-codes.js:186-218 | one request for the argument, then the handler matching the outcome |
| Shell.Shell.ApplyCategoryResponse | resources/assets/js/vue-codes.js:190-213 | the page data becomes `PageLoad.AfterCategoryResponse` of the old page data |
| Shell.Shell.RefreshSubscribed | resources/assets/js/vue-codes.js:200-205 | the subscribed array is refreshed in place and persisted when it changed |
| Shell.Shell.RefreshModerating | resources/assets/js/vue-codes.js:208-213 | the moderating step as written, throwing exactly when the position from one list indexes past the other |
| Shell.Shell.GetUserStore | resources/assets/js/vue-codes.js:138-170 | the new state is `PageLoad.AfterGetUserStore` of the old one |
| Shell.Shell.SetPageUser | resources/assets/js/vue-codes.js:143-147 | the page user is set, and `auth.stats` follows only when it is the signed-in user |

## Left out

- The 600 ms `_.throttle` around `getCategoryStore` is lodash timing behaviour. Each call is modelled as one invocation that runs.
- Asynchrony is not modelled. A request and its response are one step, so interleaving, stale responses and cancellation are not captured. Each fetch's outcome is an input.
- The `axios` calls are recorded in a request log, and `Vue.putLS` writes in a storage-write log. The network and `localStorage` are not modelled.
- `loginModal`, `markAllNotificationsAsRead` and `pushNotification`/`webNotification` are not defined in this file, or call a foreign desktop-notification API. Their topics reach the bus log and do nothing else.
- `loadWebFont`, `fillBasicStore`, component registration, the mixins and `$mount` are not part of this model.
- `whileTyping(event)`, `isGuest`, `auth.id`, `auth.username`, the route's name and parameters, the `search` query and `now()` are inputs.
- Shell.Shell.SeenAllNotifications: one `now` value stamps every entry, whereas `now()` is sampled once per element.
- Vue's reactivity is replaced by explicit calls. `OnRouteChange` stands for the `$route` watcher. `UpdatePageTitle` stands for the two counter watchers (lines 86-92), but the model does not decide when Vue fires them.
- Ids are unbounded integers compared after the loose `==` of line 145 (including a missing `auth.id`). Key codes are integers.
- The moderating refresh treats `Store.state.moderatingCategories` and `Store.moderatingCategories` as two separate arrays. Whether they alias elsewhere cannot be seen in this file.
- Shell.Shell.GetCategoryStore: a `TypeError` thrown by the response handler is reported as `threw`. What the promise chain then does is not modelled.
- Any other error from an HTTP request (no `error.response`, or a status other than 404) is one `OtherError` outcome that changes nothing.

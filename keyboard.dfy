/** The global `keydown` dispatcher, as the list of calls it makes for one event. */
module Keyboard {
  import Bus

  const Esc := 27
  const KeyS := 83
  const KeyC := 67
  const Slash := 191
  const KeyN := 78
  const KeyM := 77
  const KeyB := 66
  const KeyH := 72
  const KeyP := 80
  const KeyR := 82

  /** The fields of the DOM event that the dispatcher reads. */
  datatype KeyEvent = KeyEvent(keyCode: int, altKey: bool, shiftKey: bool)

  /** What the dispatcher asks of its surroundings: whether a text field has focus
      (`whileTyping`), whether nobody is signed in (`isGuest`), the current route's name
      and the signed-in user's name. */
  datatype KeyContext = KeyContext(typing: bool, isGuest: bool, routeName: string, username: string)

  /** One call the dispatcher makes, in the order it makes them. */
  datatype Effect =
    | CallCloseModals
    | Emit(topic: Bus.Topic)
    | CallShowNewSubmission
    | CallShowNewCategory
    | CallOpenMarkdownGuide
    | CallChangeRoute(route: string)
    | Push(path: string)
    | PreventDefault

  /** Keys that act only for a signed-in user. */
  predicate MembersOnly(keyCode: int) {
    keyCode == KeyN || keyCode == KeyM || keyCode == KeyB || keyCode == KeyP
  }

  /** The `switch (event.keyCode)`: it looks at the key code alone, never at modifiers. */
  function SwitchEffects(keyCode: int, ctx: KeyContext): (r: seq<Effect>)
    ensures |r| <= 2
    // only '/' suppresses the browser default, and it does so for everyone
    ensures PreventDefault in r <==> keyCode == Slash
    ensures ctx.isGuest && MembersOnly(keyCode) ==> r == []
    // the switch never closes the panel itself, never opens an overlay and never pushes for '/'
    ensures CallCloseModals !in r && CallShowNewSubmission !in r && CallShowNewCategory !in r
    ensures CallOpenMarkdownGuide !in r
  {
    if keyCode == KeyN then (if ctx.isGuest then [] else [CallChangeRoute("notifications")])
    else if keyCode == KeyM then (if ctx.isGuest then [] else [CallChangeRoute("messages")])
    else if keyCode == Slash then [PreventDefault, CallChangeRoute("search")]
    else if keyCode == KeyB then (if ctx.isGuest then [] else [Push("/bookmarks")])
    else if keyCode == KeyH then [Push("/")]
    else if keyCode == KeyP then (if ctx.isGuest then [] else [Push("/@" + ctx.username)])
    else if keyCode == KeyR then
      (if ctx.routeName == "home" then [Emit(Bus.RefreshHome)]
       else if ctx.routeName == "category-submissions" then [Emit(Bus.RefreshCategorySubmissions)]
       else [])
    else []
  }

  /** The calls `keydown` makes: Esc first, then the typing guard, then Alt+S, Alt+C and
      Shift+/ (each returning before the switch), then the switch. */
  function KeydownEffects(e: KeyEvent, ctx: KeyContext): (r: seq<Effect>)
    // Esc closes the panel and announces itself, typing or not, and does nothing else.
    ensures e.keyCode == Esc ==> r == [CallCloseModals, Emit(Bus.PressedEsc)]
    // While typing every other key is ignored, the modifier combinations included.
    ensures ctx.typing && e.keyCode != Esc ==> r == []
    ensures !ctx.typing && e.altKey && e.keyCode == KeyS ==> r == [CallShowNewSubmission]
    ensures !ctx.typing && e.altKey && e.keyCode == KeyC ==> r == [CallShowNewCategory]
    ensures !ctx.typing && e.shiftKey && e.keyCode == Slash ==> r == [CallOpenMarkdownGuide]
    // Search opens, and the browser default is suppressed, only for an unshifted '/' outside a text field.
    ensures CallChangeRoute("search") in r <==> !ctx.typing && !e.shiftKey && e.keyCode == Slash
    ensures PreventDefault in r <==> !ctx.typing && !e.shiftKey && e.keyCode == Slash
    // Members-only keys do nothing at all for a guest.
    ensures ctx.isGuest && MembersOnly(e.keyCode) ==> r == []
    // The overlay forms open only through their Alt/Shift combinations.
    ensures CallShowNewSubmission in r <==> !ctx.typing && e.altKey && e.keyCode == KeyS
    ensures CallShowNewCategory in r <==> !ctx.typing && e.altKey && e.keyCode == KeyC
    ensures CallOpenMarkdownGuide in r <==> !ctx.typing && e.shiftKey && e.keyCode == Slash
  {
    var esc := if e.keyCode == Esc then [CallCloseModals, Emit(Bus.PressedEsc)] else [];
    if ctx.typing then esc
    else if e.altKey && e.keyCode == KeyS then esc + [CallShowNewSubmission]
    else if e.altKey && e.keyCode == KeyC then esc + [CallShowNewCategory]
    else if e.shiftKey && e.keyCode == Slash then esc + [CallOpenMarkdownGuide]
    else esc + SwitchEffects(e.keyCode, ctx)
  }

  /** Outside a text field a key of the switch other than '/' acts the same with or without
      Alt and Shift: Alt+N still reaches the case for 'n'. */
  lemma SwitchIgnoresModifiers(e: KeyEvent, ctx: KeyContext)
    requires !ctx.typing && e.keyCode != KeyS && e.keyCode != KeyC && e.keyCode != Slash
    ensures KeydownEffects(e, ctx) == KeydownEffects(KeyEvent(e.keyCode, false, false), ctx)
  {
  }

  /** 'h' and '/' act for guests and members alike. */
  lemma HomeAndSearchForEveryone(e: KeyEvent, ctx: KeyContext)
    requires !ctx.typing
    ensures e.keyCode == KeyH ==> KeydownEffects(e, ctx) == [Push("/")]
    ensures e.keyCode == Slash && !e.shiftKey ==>
      KeydownEffects(e, ctx) == [PreventDefault, CallChangeRoute("search")]
  {
  }

  /** A signed-in user outside a text field reaches each members-only key's action, with or
      without Alt: Alt+N reaches the case for 'n' too. */
  lemma MembersKeys(e: KeyEvent, ctx: KeyContext)
    requires !ctx.typing && !ctx.isGuest
    ensures e.keyCode == KeyN ==> KeydownEffects(e, ctx) == [CallChangeRoute("notifications")]
    ensures e.keyCode == KeyM ==> KeydownEffects(e, ctx) == [CallChangeRoute("messages")]
    ensures e.keyCode == KeyB ==> KeydownEffects(e, ctx) == [Push("/bookmarks")]
    ensures e.keyCode == KeyP ==> KeydownEffects(e, ctx) == [Push("/@" + ctx.username)]
  {
  }

  /** 'r' refreshes only the feed of the page it is pressed on. */
  lemma RefreshFollowsRoute(e: KeyEvent, ctx: KeyContext)
    requires !ctx.typing && e.keyCode == KeyR
    ensures Emit(Bus.RefreshHome) in KeydownEffects(e, ctx) <==> ctx.routeName == "home"
    ensures Emit(Bus.RefreshCategorySubmissions) in KeydownEffects(e, ctx)
      <==> ctx.routeName == "category-submissions"
    ensures ctx.routeName != "home" && ctx.routeName != "category-submissions" ==>
      KeydownEffects(e, ctx) == []
  {
  }

  /** Plain 's' and 'c' (without Alt) fall through to the switch's `default` and do nothing. */
  lemma PlainSAndCIgnored(e: KeyEvent, ctx: KeyContext)
    requires !ctx.typing && !e.altKey && (e.keyCode == KeyS || e.keyCode == KeyC)
    ensures KeydownEffects(e, ctx) == []
  {
  }

  /** A key the dispatcher does not know produces no call and no default-prevention. */
  lemma UnknownKeysIgnored(e: KeyEvent, ctx: KeyContext)
    requires e.keyCode !in {Esc, KeyS, KeyC, Slash, KeyN, KeyM, KeyB, KeyH, KeyP, KeyR}
    ensures KeydownEffects(e, ctx) == []
  {
  }
}

/** The event bus topics, with their payloads. */
module Bus {
  import opened Types

  datatype Topic =
    | StartConversation(contact: Contact)  // 'start-conversation'
    | NewRoute(route: string)              // 'new-route'
    | Close                                // 'close'
    | Submit                               // 'submit'
    | LoginModal                           // 'login-modal'
    | ChangeRoute(route: string)           // 'change-route'
    | MarkdownGuide                        // 'markdown-guide'
    | PushNotification(title: string)      // 'push-notification'
    | MarkNotificationsReadTopic           // 'mark-notifications-read'
    | PressedEsc                           // 'pressed-esc'
    | Conversation(contact: Contact)       // 'conversation'
    | RefreshHome                          // 'refresh-home'
    | RefreshCategorySubmissions           // 'refresh-category-submissions'

  /** The topics the root instance subscribes a handler of this file to (lines 103 to 109). */
  predicate RootHandles(t: Topic)
    // a topic whose handler emits again is one of the root's
    ensures Rank(t) > 0 ==> RootHandles(t)
    // the topics the root itself announces, and those handled elsewhere, have no root handler here
    ensures (|| t.PressedEsc? || t.Conversation? || t.RefreshHome? || t.RefreshCategorySubmissions?
             || t.LoginModal? || t.PushNotification? || t.MarkNotificationsReadTopic?) ==> !RootHandles(t)
  {
    t.StartConversation? || t.NewRoute? || t.Close? || t.Submit? || t.ChangeRoute? || t.MarkdownGuide?
  }

  /** Nesting depth of the root's handler for a topic: the 'change-route' handler emits
      'close', and the 'start-conversation' handler runs changeRoute. */
  function Rank(t: Topic): nat {
    match t
    case ChangeRoute(_) => 2
    case StartConversation(_) => 3
    case _ => 0
  }
}

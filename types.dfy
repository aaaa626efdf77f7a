/** Records that the shell controller reads from the shared Store, the router and the server. */
module Types {

  datatype Option<+T> = None | Some(value: T)

  /** A timestamp as the server sends it; `None` stands for `null`/`undefined`. */
  type Timestamp = Option<string>

  /** JavaScript truthiness of a `read_at` value: `null`, `undefined` and `""` are falsy. */
  predicate Truthy(t: Timestamp) {
    t.Some? && t.value != ""
  }

  /** An entry of `Store.state.notifications`. */
  datatype Notification = Notification(id: int, readAt: Timestamp)

  /** An entry of `Store.state.contacts`, reduced to the fields of its `last_message` that are read. */
  datatype Contact = Contact(lastMessageOwnerId: int, lastMessageReadAt: Timestamp)

  /** A category record: the page cache, the preload snapshot, and the entries of the
      subscribed and moderating lists all share this shape. */
  datatype Category = Category(id: int, name: string, avatar: string)

  /** A user-page record; `stats` is copied into `auth.stats` for the signed-in user's own page. */
  datatype User = User(id: int, username: string, stats: map<string, int>)

  /** Loose `==` between a record id and `auth.id`, which a guest may not have. */
  predicate IsAuthUser(id: int, authId: Option<int>) {
    authId == Some(id)
  }

  /** HTTP requests the shell issues. */
  datatype Request =
    | MarkReadPost                 // POST /mark-notifications-read
    | UserStoreGet(username: string) // GET /get-user-store?username=
    | CategoryStoreGet(name: string) // GET /get-category-store?name=

  /** How a GET settled: the response body, a 404, or any other failure. */
  datatype FetchResult<+T> = Success(data: T) | NotFound | OtherError

  /** A `Vue.putLS(key, list)` write to local storage. */
  datatype StorageWrite = StorageWrite(key: string, categories: seq<Category>)
}

/** Unread counters, the right-sidebar switch, the title badge and the bulk mark-as-read stamp. */
module Badge {
  import opened Types

  /** `unreadNotifications`: how many notifications still have `read_at == null`. */
  function UnreadNotifications(ns: seq<Notification>): (n: nat)
    ensures n <= |ns|
    ensures n == 0 <==> forall i :: 0 <= i < |ns| ==> ns[i].readAt.Some?
  {
    if ns == [] then 0
    else (if ns[0].readAt.None? then 1 else 0) + UnreadNotifications(ns[1..])
  }

  /** A conversation counts as unread when its last message came from someone other than
      the signed-in user and has no `read_at`. */
  predicate UnreadContact(c: Contact, authId: Option<int>)
    // only a message with no `read_at` can count
    ensures UnreadContact(c, authId) ==> c.lastMessageReadAt.None?
    // without a signed-in user every unread last message counts, whoever sent it
    ensures authId.None? ==> (UnreadContact(c, authId) <==> c.lastMessageReadAt.None?)
    // the signed-in user's own last message never counts
    ensures authId == Some(c.lastMessageOwnerId) ==> !UnreadContact(c, authId)
  {
    !IsAuthUser(c.lastMessageOwnerId, authId) && c.lastMessageReadAt.None?
  }

  /** `unreadMessages`: how many contacts are unread. */
  function UnreadMessages(cs: seq<Contact>, authId: Option<int>): (n: nat)
    ensures n <= |cs|
    ensures n == 0 <==> forall i :: 0 <= i < |cs| ==> !UnreadContact(cs[i], authId)
  {
    if cs == [] then 0
    else (if UnreadContact(cs[0], authId) then 1 else 0) + UnreadMessages(cs[1..], authId)
  }

  /** The set of positions a filter-count counts, as an independent definition. */
  ghost function UnreadPositions(ns: seq<Notification>): set<int> {
    set i | 0 <= i < |ns| && ns[i].readAt.None?
  }

  /** Appending one notification adds one to the count exactly when it is unread. */
  lemma {:induction false} UnreadNotificationsAppend(ns: seq<Notification>, n: Notification)
    ensures UnreadNotifications(ns + [n]) == UnreadNotifications(ns) + (if n.readAt.None? then 1 else 0)
  {
    if ns != [] {
      assert (ns + [n])[1..] == ns[1..] + [n];
      UnreadNotificationsAppend(ns[1..], n);
    }
  }

  /** `unreadNotifications` is the number of positions whose `read_at` is null. */
  lemma {:induction false} UnreadNotificationsCountsPositions(ns: seq<Notification>)
    ensures UnreadNotifications(ns) == |UnreadPositions(ns)|
  {
    if ns == [] {
      assert UnreadPositions(ns) == {};
    } else {
      var init, last := ns[..|ns| - 1], ns[|ns| - 1];
      assert ns == init + [last];
      UnreadNotificationsAppend(init, last);
      UnreadNotificationsCountsPositions(init);
      if last.readAt.None? {
        assert UnreadPositions(ns) == UnreadPositions(init) + {|init|};
      } else {
        assert UnreadPositions(ns) == UnreadPositions(init);
      }
    }
  }

  /** Appending one contact adds one to the count exactly when it is unread. */
  lemma {:induction false} UnreadMessagesAppend(cs: seq<Contact>, c: Contact, authId: Option<int>)
    ensures UnreadMessages(cs + [c], authId) == UnreadMessages(cs, authId) + (if UnreadContact(c, authId) then 1 else 0)
  {
    if cs != [] {
      assert (cs + [c])[1..] == cs[1..] + [c];
      UnreadMessagesAppend(cs[1..], c, authId);
    }
  }

  /** The positions `unreadMessages` counts, as an independent definition. */
  ghost function UnreadContactPositions(cs: seq<Contact>, authId: Option<int>): set<int> {
    set i | 0 <= i < |cs| && UnreadContact(cs[i], authId)
  }

  /** `unreadMessages` is the number of positions holding an unread conversation. */
  lemma {:induction false} UnreadMessagesCountsPositions(cs: seq<Contact>, authId: Option<int>)
    ensures UnreadMessages(cs, authId) == |UnreadContactPositions(cs, authId)|
  {
    if cs == [] {
      assert UnreadContactPositions(cs, authId) == {};
    } else {
      var init, last := cs[..|cs| - 1], cs[|cs| - 1];
      assert cs == init + [last];
      UnreadMessagesAppend(init, last, authId);
      UnreadMessagesCountsPositions(init, authId);
      if UnreadContact(last, authId) {
        assert UnreadContactPositions(cs, authId) == UnreadContactPositions(init, authId) + {|init|};
      } else {
        assert UnreadContactPositions(cs, authId) == UnreadContactPositions(init, authId);
      }
    }
  }

  /** `showRightSidebar`: hidden while the content region shows notifications, messages or search. */
  function ShowRightSidebar(contentRouter: string): (show: bool)
    ensures show <==> contentRouter !in {"notifications", "messages", "search"}
  {
    !(contentRouter == "notifications" || contentRouter == "messages" || contentRouter == "search")
  }

  /** One step of the `seenAllNotifications` pass: a falsy `read_at` receives the current time. */
  function Stamp(n: Notification, now: string): (m: Notification)
    ensures m.id == n.id && m.readAt.Some?
    ensures Truthy(n.readAt) ==> m == n
    ensures !Truthy(n.readAt) ==> m.readAt == Some(now)
  {
    if Truthy(n.readAt) then n else n.(readAt := Some(now))
  }

  /** The notifications after the mark-as-read pass: same length and order, every entry read,
      and entries that were already read untouched. */
  function StampAll(ns: seq<Notification>, now: string): (r: seq<Notification>)
    ensures |r| == |ns|
    ensures forall i :: 0 <= i < |r| ==> r[i].id == ns[i].id && r[i].readAt.Some?
    ensures forall i :: 0 <= i < |r| ==> Truthy(ns[i].readAt) ==> r[i] == ns[i]
    ensures forall i :: 0 <= i < |r| ==> !Truthy(ns[i].readAt) ==> r[i].readAt == Some(now)
    ensures UnreadNotifications(r) == 0
  {
    seq(|ns|, i requires 0 <= i < |ns| => Stamp(ns[i], now))
  }

  /** The pass changes nothing when it is repeated with any later time. */
  lemma StampAllIdempotent(ns: seq<Notification>, now: string, later: string)
    requires now != ""
    ensures StampAll(StampAll(ns, now), later) == StampAll(ns, now)
  {
  }

  predicate IsDigits(s: string) {
    forall i :: 0 <= i < |s| ==> '0' <= s[i] <= '9'
  }

  function DecimalDigit(d: nat): (c: char)
    requires d < 10
    ensures '0' <= c <= '9' && c as int - '0' as int == d
  {
    ('0' as int + d) as char
  }

  /** JavaScript's string form of a non-negative integer: decimal digits, no leading zero. */
  function Decimal(n: nat): (s: string)
    ensures |s| > 0 && IsDigits(s)
    ensures |s| > 1 ==> s[0] != '0'
  {
    if n < 10 then [DecimalDigit(n)] else Decimal(n / 10) + [DecimalDigit(n % 10)]
  }

  /** Reads a digit string back as a number. */
  function DecimalValue(s: string): nat
    requires IsDigits(s)
  {
    if s == [] then 0 else DecimalValue(s[..|s| - 1]) * 10 + (s[|s| - 1] as int - '0' as int)
  }

  lemma {:induction false} DecimalRoundTrip(n: nat)
    ensures DecimalValue(Decimal(n)) == n
  {
    if n >= 10 {
      DecimalRoundTrip(n / 10);
      var s := Decimal(n);
      assert s[..|s| - 1] == Decimal(n / 10);
    }
  }

  /** The document title for a total unread count over the base title captured at start-up:
      it always ends with the base and carries a parenthesised prefix exactly when something
      is unread. */
  function PageTitle(total: nat, base: string): (t: string)
    ensures |t| >= |base| && t[|t| - |base|..] == base
    ensures total == 0 <==> t == base
    ensures total > 0 ==> |t| >= |base| + 4 && t[0] == '(' && t[|t| - |base| - 2..|t| - |base|] == ") "
  {
    if total > 0 then "(" + Decimal(total) + ") " + base else base
  }

  /** Different totals give different titles, so the badge shows the count and nothing else. */
  /** The digits between '(' and ') ' read back as the total. */
  lemma TitleShowsTotal(total: nat, base: string)
    requires total > 0
    ensures var t := PageTitle(total, base);
      var d := t[1..|t| - |base| - 2];
      IsDigits(d) && DecimalValue(d) == total
  {
    var t := PageTitle(total, base);
    assert t[1..|t| - |base| - 2] == Decimal(total);
    DecimalRoundTrip(total);
  }

  lemma {:induction false} TitleDeterminesTotal(t1: nat, t2: nat, base: string)
    requires PageTitle(t1, base) == PageTitle(t2, base)
    ensures t1 == t2
  {
    if t1 > 0 && t2 > 0 {
      var d1, d2 := Decimal(t1), Decimal(t2);
      var x := PageTitle(t1, base);
      assert |d1| == |d2|;
      assert d1 == x[1..1 + |d1|];
      assert d2 == PageTitle(t2, base)[1..1 + |d2|];
      DecimalRoundTrip(t1);
      DecimalRoundTrip(t2);
    }
  }
}

/** The header of `src/components/Header.jsx`: notification read-marking and the
    unread badge, the greeting, and the light/dark theme. */
module Header {
  import opened Js

  /** A notification is a record with (at least) an `id` and a `read` flag. */
  type Notification = Record

  predicate IsRead(n: Notification) {
    Truthy(Get(n, "read"))
  }

  /** `{ ...notif, read: true }`. */
  function Read(n: Notification): (r: Notification)
    ensures IsRead(r)
    ensures forall k :: k != "read" ==> Get(r, k) == Get(n, k)
  {
    n["read" := Bool(true)]
  }

  /** `markNotificationAsRead(id)`: the notifications whose id is strictly equal to
      `id` are marked read and keep their other fields; the others are unchanged;
      length and order are kept. */
  function MarkRead(ns: seq<Notification>, id: Value): (r: seq<Notification>)
    ensures |r| == |ns|
    ensures forall i :: 0 <= i < |ns| ==>
      if StrictEquals(Get(ns[i], "id"), id) then IsRead(r[i]) && forall k :: k != "read" ==> Get(r[i], k) == Get(ns[i], k)
      else r[i] == ns[i]
  {
    seq(|ns|, i requires 0 <= i < |ns| => if StrictEquals(Get(ns[i], "id"), id) then Read(ns[i]) else ns[i])
  }

  /** `markAllAsRead`: every notification is marked read, keeping its other fields. */
  function MarkAll(ns: seq<Notification>): (r: seq<Notification>)
    ensures |r| == |ns|
    ensures forall i :: 0 <= i < |ns| ==> IsRead(r[i]) && forall k :: k != "read" ==> Get(r[i], k) == Get(ns[i], k)
  {
    seq(|ns|, i requires 0 <= i < |ns| => Read(ns[i]))
  }

  /** `getUnreadCount`: the number of notifications whose `read` is falsy. */
  function UnreadCount(ns: seq<Notification>): (r: nat)
    ensures r <= |ns|
  {
    if ns == [] then 0 else UnreadCount(ns[..|ns| - 1]) + (if IsRead(ns[|ns| - 1]) then 0 else 1)
  }

  /** After marking everything read, nothing is unread. */
  lemma {:induction false} MarkAllClears(ns: seq<Notification>)
    ensures UnreadCount(MarkAll(ns)) == 0
  {
    ReadCountZero(MarkAll(ns));
  }

  lemma {:induction false} ReadCountZero(ns: seq<Notification>)
    requires forall i :: 0 <= i < |ns| ==> IsRead(ns[i])
    ensures UnreadCount(ns) == 0
  {
    if ns != [] {
      ReadCountZero(ns[..|ns| - 1]);
    }
  }

  /** For lists of the same length where each element of `b` is read whenever the
      one of `a` at that position is, `b` has no more unread notifications; it has
      fewer when some position goes from unread to read. */
  lemma {:induction false} FewerUnread(a: seq<Notification>, b: seq<Notification>)
    requires |a| == |b|
    requires forall i :: 0 <= i < |a| ==> IsRead(a[i]) ==> IsRead(b[i])
    ensures UnreadCount(b) <= UnreadCount(a)
    ensures (exists i :: 0 <= i < |a| && !IsRead(a[i]) && IsRead(b[i])) ==> UnreadCount(b) < UnreadCount(a)
  {
    if a != [] {
      var n := |a| - 1;
      forall i | 0 <= i < n ensures IsRead(a[..n][i]) ==> IsRead(b[..n][i]) {
        assert a[..n][i] == a[i] && b[..n][i] == b[i];
      }
      FewerUnread(a[..n], b[..n]);
      if exists i :: 0 <= i < |a| && !IsRead(a[i]) && IsRead(b[i]) {
        var i :| 0 <= i < |a| && !IsRead(a[i]) && IsRead(b[i]);
        if i < n {
          assert a[..n][i] == a[i] && b[..n][i] == b[i];
        }
      }
    }
  }

  /** Marking a notification read never increases the unread count; it lowers it
      when an unread notification has that id, and leaves the list as it is when
      no notification has it. */
  lemma MarkReadCount(ns: seq<Notification>, id: Value)
    ensures UnreadCount(MarkRead(ns, id)) <= UnreadCount(ns)
    ensures (exists i :: 0 <= i < |ns| && !IsRead(ns[i]) && StrictEquals(Get(ns[i], "id"), id)) ==>
            UnreadCount(MarkRead(ns, id)) < UnreadCount(ns)
    ensures (forall i :: 0 <= i < |ns| ==> !StrictEquals(Get(ns[i], "id"), id)) ==> MarkRead(ns, id) == ns
  {
    FewerUnread(ns, MarkRead(ns, id));
  }

  /** `getGreeting`, for the hour of the current time. */
  function Greeting(hour: int): (r: string)
    ensures r == "Bonjour" <==> hour < 12
    ensures r == "Bon après-midi" <==> 12 <= hour < 18
    ensures r == "Bonsoir" <==> 18 <= hour
  {
    if hour < 12 then "Bonjour" else if hour < 18 then "Bon après-midi" else "Bonsoir"
  }

  /** The theme on start: the stored value, or `'light'` when none (or an empty
      one) is stored. */
  function InitialTheme(stored: Option<string>): (r: string)
    ensures r != ""
    ensures stored.Some? && stored.value != "" ==> r == stored.value
    ensures stored.None? || stored.value == "" ==> r == "light"
  {
    match stored
    case Some(t) => if t != "" then t else "light"
    case None => "light"
  }

  /** `toggleTheme`: `'dark'` becomes `'light'`, anything else `'dark'`. */
  function Toggle(theme: string): (r: string)
    ensures r == "light" || r == "dark"
    ensures r == "light" <==> theme == "dark"
  {
    if theme == "dark" then "light" else "dark"
  }

  /** The class put on `document.body`. */
  function BodyClass(theme: string): string {
    if theme == "dark" then "theme-dark" else "theme-light"
  }

  /** Toggling twice returns to a theme that was `'light'` or `'dark'`, and any
      other stored value ends up `'light'`; every toggle flips the body class. */
  lemma ToggleTwice(theme: string)
    ensures theme == "light" || theme == "dark" ==> Toggle(Toggle(theme)) == theme
    ensures theme != "light" && theme != "dark" ==> Toggle(Toggle(theme)) == "light"
    ensures BodyClass(Toggle(theme)) != BodyClass(theme)
  {
  }
}

/** The notifications page of `src/pages/Notifications.tsx`: marking
    notifications read, the unread badge, the type tabs and their counts,
    the preference switches and the sidebar navigation of the page. */
module Notifications {
  import opened Wrappers
  import opened Lists

  datatype Kind = Message | Update | Team | System

  datatype Notification = Notification(
    id: string, kind: Kind, title: string, description: string, time: string, read: bool)

  /** A tab: "all" or one kind. */
  datatype FilterType = AllKinds | OfKind(kind: Kind)

  /** The keys of `NotificationPreferences`. */
  datatype PreferenceKey = Messages | Updates | TeamKey | SystemKey | Email | Push

  datatype Preferences = Preferences(
    messages: bool, updates: bool, team: bool, system: bool, email: bool, push: bool)
  {
    function Get(key: PreferenceKey): bool {
      match key
      case Messages => messages
      case Updates => updates
      case TeamKey => team
      case SystemKey => system
      case Email => email
      case Push => push
    }
  }

  /** The switches when the page opens: everything on except e-mail. */
  const InitialPreferences := Preferences(true, true, true, true, false, true)

  function IsUnread(): Notification -> bool {
    (n: Notification) => !n.read
  }

  function OfKindPredicate(kind: Kind): Notification -> bool {
    (n: Notification) => n.kind == kind
  }

  /** `unreadCount`: how many notifications are still unread. */
  function UnreadCount(notifications: seq<Notification>): (r: nat)
    ensures r <= |notifications|
    ensures r == 0 <==> forall i :: 0 <= i < |notifications| ==> notifications[i].read
  {
    var unread := Filter(notifications, IsUnread());
    assert (exists i :: 0 <= i < |notifications| && !notifications[i].read) ==> unread != [] by {
      if exists i :: 0 <= i < |notifications| && !notifications[i].read {
        var i :| 0 <= i < |notifications| && !notifications[i].read;
        assert notifications[i] in unread;
      }
    }
    assert unread != [] ==> unread[0] in unread && unread[0] in notifications && IsUnread()(unread[0]);
    |unread|
  }

  /** The notifications with read set, for the one id. */
  function MarkAsReadIn(notifications: seq<Notification>, id: string): (r: seq<Notification>)
    ensures |r| == |notifications|
    ensures forall i :: 0 <= i < |r| && notifications[i].id != id ==> r[i] == notifications[i]
    ensures forall i :: 0 <= i < |r| && notifications[i].id == id ==> r[i] == notifications[i].(read := true)
  {
    seq(|notifications|, i requires 0 <= i < |notifications| =>
      if notifications[i].id == id then notifications[i].(read := true) else notifications[i])
  }

  /** Marking the same notification twice is the same as marking it once. */
  lemma MarkAsReadIdempotent(notifications: seq<Notification>, id: string)
    ensures MarkAsReadIn(MarkAsReadIn(notifications, id), id) == MarkAsReadIn(notifications, id)
  {
  }

  /** Marking never adds to the badge, and lowers it by one for each
      unread notification with that id. */
  lemma {:induction false} MarkAsReadLowersUnread(notifications: seq<Notification>, id: string)
    ensures UnreadCount(MarkAsReadIn(notifications, id)) + |Filter(notifications, UnreadWithId(id))|
            == UnreadCount(notifications)
  {
    if notifications != [] {
      var r := MarkAsReadIn(notifications, id);
      MarkAsReadLowersUnread(notifications[1..], id);
      assert MarkAsReadIn(notifications[1..], id) == r[1..];
    }
  }

  function UnreadWithId(id: string): Notification -> bool {
    (n: Notification) => !n.read && n.id == id
  }

  /** Every notification, read. */
  function MarkAllAsReadIn(notifications: seq<Notification>): (r: seq<Notification>)
    ensures |r| == |notifications|
    ensures forall i :: 0 <= i < |r| ==> r[i] == notifications[i].(read := true)
  {
    seq(|notifications|, i requires 0 <= i < |notifications| => notifications[i].(read := true))
  }

  /** After "mark all as read" the badge shows nothing. */
  lemma MarkAllClearsBadge(notifications: seq<Notification>)
    ensures UnreadCount(MarkAllAsReadIn(notifications)) == 0
  {
  }

  /** `filteredNotifications`: the whole list on the "all" tab, else the
      notifications of that kind in their original order. */
  function FilteredNotifications(notifications: seq<Notification>, filter: FilterType): (r: seq<Notification>)
    ensures filter.AllKinds? ==> r == notifications
    ensures filter.OfKind? ==> forall n :: n in r <==> n in notifications && n.kind == filter.kind
  {
    if filter.AllKinds? then notifications else Filter(notifications, OfKindPredicate(filter.kind))
  }

  /** The number on a tab. */
  function TabCount(notifications: seq<Notification>, filter: FilterType): (r: nat)
    ensures r == |FilteredNotifications(notifications, filter)|
    ensures filter.AllKinds? ==> r == |notifications|
  {
    if filter.AllKinds? then |notifications| else |Filter(notifications, OfKindPredicate(filter.kind))|
  }

  /** The four kind tabs count every notification exactly once. */
  lemma {:induction false} TabCountsSum(notifications: seq<Notification>)
    ensures TabCount(notifications, OfKind(Message)) + TabCount(notifications, OfKind(Update))
            + TabCount(notifications, OfKind(Team)) + TabCount(notifications, OfKind(System))
            == TabCount(notifications, AllKinds)
  {
    if notifications != [] {
      TabCountsSum(notifications[1..]);
    }
  }

  /** `togglePreference(key)`: the switch for `key` flips. */
  function TogglePreference(prefs: Preferences, key: PreferenceKey): (r: Preferences)
    ensures r.Get(key) == !prefs.Get(key)
    ensures forall k :: k != key ==> r.Get(k) == prefs.Get(k)
  {
    match key
    case Messages => prefs.(messages := !prefs.messages)
    case Updates => prefs.(updates := !prefs.updates)
    case TeamKey => prefs.(team := !prefs.team)
    case SystemKey => prefs.(system := !prefs.system)
    case Email => prefs.(email := !prefs.email)
    case Push => prefs.(push := !prefs.push)
  }

  /** Toggling the same switch twice restores the preferences. */
  lemma ToggleTwice(prefs: Preferences, key: PreferenceKey)
    ensures TogglePreference(TogglePreference(prefs, key), key) == prefs
  {
  }

  /** `handleItemClick`: where the page navigates, if anywhere. The
      notifications item stays on the page; the two other sections go to
      their pages; everything else goes home. */
  function ItemClickTarget(item: string): (r: Option<string>)
    ensures r.None? <==> item == "notifications"
    ensures r.Some? ==> r.value == "/platforms" || r.value == "/my-listings" || r.value == "/"
    ensures item == "platforms" ==> r == Some("/platforms")
    ensures item == "my-listings" ==> r == Some("/my-listings")
    ensures item != "notifications" && item != "platforms" && item != "my-listings" ==> r == Some("/")
  {
    if item == "notifications" then None
    else if item == "platforms" then Some("/platforms")
    else if item == "my-listings" then Some("/my-listings")
    else Some("/")
  }

  /** The page's state: the list, the open tab, the switches. */
  class NotificationsPage {
    var notifications: seq<Notification>
    var activeFilter: FilterType
    var preferences: Preferences
    var activeItem: string

    constructor(initial: seq<Notification>)
      ensures notifications == initial && activeFilter == AllKinds
      ensures preferences == InitialPreferences && activeItem == "notifications"
    {
      notifications := initial;
      activeFilter := AllKinds;
      preferences := InitialPreferences;
      activeItem := "notifications";
    }

    function Visible(): seq<Notification>
      reads this
    {
      FilteredNotifications(notifications, activeFilter)
    }

    method MarkAsRead(id: string)
      modifies this
      ensures notifications == MarkAsReadIn(old(notifications), id)
      ensures UnreadCount(notifications) <= old(UnreadCount(notifications))
      ensures activeFilter == old(activeFilter) && preferences == old(preferences) && activeItem == old(activeItem)
    {
      MarkAsReadLowersUnread(notifications, id);
      notifications := MarkAsReadIn(notifications, id);
    }

    method MarkAllAsRead()
      modifies this
      ensures notifications == MarkAllAsReadIn(old(notifications))
      ensures UnreadCount(notifications) == 0
      ensures activeFilter == old(activeFilter) && preferences == old(preferences) && activeItem == old(activeItem)
    {
      notifications := MarkAllAsReadIn(notifications);
      MarkAllClearsBadge(old(notifications));
    }

    method TogglePreferenceKey(key: PreferenceKey)
      modifies this
      ensures preferences == TogglePreference(old(preferences), key)
      ensures notifications == old(notifications) && activeFilter == old(activeFilter) && activeItem == old(activeItem)
    {
      preferences := TogglePreference(preferences, key);
    }

    /** The click highlights the item and returns the route to go to. */
    method HandleItemClick(item: string) returns (target: Option<string>)
      modifies this
      ensures activeItem == item && target == ItemClickTarget(item)
      ensures notifications == old(notifications) && activeFilter == old(activeFilter) && preferences == old(preferences)
    {
      activeItem := item;
      target := ItemClickTarget(item);
    }
  }
}

/** The application shell of `src/layouts/AppShellLayout.tsx`: which sidebar
    item is highlighted, the settings and history side panels, and the
    unread-notification badge. Navigation is the assignment of the
    location's `pathname` and its query string `search`. */
module AppShellLayout {
  import opened Text

  const NotificationsItem: string := "notifications"
  const PlatformsItem: string := "platforms"
  const MyListingsItem: string := "my-listings"
  const SettingsItem: string := "settings"
  const HistoryItem: string := "history"
  const DefaultHomeItem: string := "api"
  const NotificationsPath: string := "/notifications"
  const ChatPath: string := "/chat"
  const UnreadAfterLeaving: int := 2

  /** The three items that have a page of their own. */
  predicate IsSection(item: string) {
    item == NotificationsItem || item == PlatformsItem || item == MyListingsItem
  }

  /** `getActiveItem`: a section whose route prefixes the path, checked in
      the order notifications, platforms, my-listings; every other path
      (the home route, chats, anything else) highlights `homeActiveItem`. */
  function GetActiveItem(pathname: string, homeActiveItem: string): (r: string)
    ensures r == homeActiveItem || (IsSection(r) && IsPrefix("/" + r, pathname))
    ensures IsPrefix(NotificationsPath, pathname) ==> r == NotificationsItem
    ensures !IsPrefix(NotificationsPath, pathname) && IsPrefix("/" + PlatformsItem, pathname) ==> r == PlatformsItem
    ensures (!IsPrefix(NotificationsPath, pathname) && !IsPrefix("/" + PlatformsItem, pathname)
             && IsPrefix("/" + MyListingsItem, pathname)) ==> r == MyListingsItem
    ensures (!IsPrefix("/" + NotificationsItem, pathname) && !IsPrefix("/" + PlatformsItem, pathname)
             && !IsPrefix("/" + MyListingsItem, pathname)) ==> r == homeActiveItem
  {
    if IsPrefix("/notifications", pathname) then NotificationsItem
    else if IsPrefix("/platforms", pathname) then PlatformsItem
    else if IsPrefix("/my-listings", pathname) then MyListingsItem
    else if pathname == "/" || IsPrefix("/chat", pathname) then homeActiveItem
    else homeActiveItem
  }

  /** The `activeItem` memo: an open side panel wins over the route. */
  function ActiveItemOf(settingsOpen: bool, historyOpen: bool, pathname: string, homeActiveItem: string): (r: string)
    ensures settingsOpen ==> r == SettingsItem
    ensures !settingsOpen && historyOpen ==> r == HistoryItem
    ensures !settingsOpen && !historyOpen ==> r == GetActiveItem(pathname, homeActiveItem)
  {
    if settingsOpen then SettingsItem
    else if historyOpen then HistoryItem
    else GetActiveItem(pathname, homeActiveItem)
  }

  /** A section's own route highlights that section, whatever the home item. */
  lemma SectionRouteHighlightsSection(item: string, homeActiveItem: string)
    requires IsSection(item)
    ensures GetActiveItem("/" + item, homeActiveItem) == item
  {
    var path := "/" + item;
    if item == PlatformsItem {
      assert path[1] != NotificationsPath[1];
    } else if item == MyListingsItem {
      assert path[1] != NotificationsPath[1];
      assert path[1] != "/platforms"[1];
    }
  }

  /** The home route highlights the home item. */
  lemma HomeRouteHighlightsHome(homeActiveItem: string)
    ensures GetActiveItem("/", homeActiveItem) == homeActiveItem
  {
  }

  class Shell {
    var pathname: string
    var search: string
    var settingsOpen: bool
    var historyOpen: bool
    var homeActiveItem: string
    var unreadCount: int

    /** The state on first render, at `pathname0` with query `search0`. */
    constructor(pathname0: string, search0: string)
      ensures pathname == pathname0 && search == search0 && !settingsOpen && !historyOpen
      ensures homeActiveItem == DefaultHomeItem && unreadCount == UnreadAfterLeaving
    {
      pathname := pathname0;
      search := search0;
      settingsOpen, historyOpen := false, false;
      homeActiveItem := DefaultHomeItem;
      unreadCount := UnreadAfterLeaving;
    }

    /** At most one side panel is open. */
    predicate OnePanel()
      reads this
    {
      !(settingsOpen && historyOpen)
    }

    function ActiveItem(): string
      reads this
    {
      ActiveItemOf(settingsOpen, historyOpen, pathname, homeActiveItem)
    }

    /** `navigate(path + query)` together with the `unreadCount` effect,
        which runs whenever the path (not the query) changes: any path but
        the notifications page resets the badge to 2. */
    method Navigate(path: string, query: string)
      modifies this
      ensures pathname == path && search == query
      ensures path != old(pathname) && path != NotificationsPath ==> unreadCount == UnreadAfterLeaving
      ensures !(path != old(pathname) && path != NotificationsPath) ==> unreadCount == old(unreadCount)
      ensures settingsOpen == old(settingsOpen) && historyOpen == old(historyOpen)
      ensures homeActiveItem == old(homeActiveItem)
    {
      var changed := path != pathname;
      pathname := path;
      search := query;
      if changed && pathname != NotificationsPath {
        unreadCount := UnreadAfterLeaving;
      }
    }

    /** `handleItemClick`. Settings and history each open their panel and
        close the other; any other item closes both; the three sections
        navigate to their pages, every other item becomes the home item and
        navigates home. Either way the clicked item ends up highlighted. */
    method HandleItemClick(item: string)
      modifies this
      ensures OnePanel()
      ensures ActiveItem() == item
      ensures item == SettingsItem ==>
                settingsOpen && !historyOpen && pathname == old(pathname) && search == old(search)
                && homeActiveItem == old(homeActiveItem) && unreadCount == old(unreadCount)
      ensures item == HistoryItem ==>
                historyOpen && !settingsOpen && pathname == old(pathname) && search == old(search)
                && homeActiveItem == old(homeActiveItem) && unreadCount == old(unreadCount)
      ensures item != SettingsItem && item != HistoryItem ==> !settingsOpen && !historyOpen && search == ""
      ensures item != SettingsItem && item != HistoryItem ==>
                unreadCount == if pathname != old(pathname) && pathname != NotificationsPath
                               then UnreadAfterLeaving else old(unreadCount)
      ensures IsSection(item) ==> pathname == "/" + item && homeActiveItem == old(homeActiveItem)
      ensures item != SettingsItem && item != HistoryItem && !IsSection(item) ==>
                pathname == "/" && homeActiveItem == item
    {
      if item == SettingsItem {
        settingsOpen := true;
        historyOpen := false;
        return;
      }
      if item == HistoryItem {
        historyOpen := true;
        settingsOpen := false;
        return;
      }
      settingsOpen := false;
      historyOpen := false;
      if IsSection(item) {
        // "/notifications", "/platforms" or "/my-listings"
        Navigate("/" + item, "");
        SectionRouteHighlightsSection(item, homeActiveItem);
        return;
      }
      homeActiveItem := item;
      Navigate("/", "");
      HomeRouteHighlightsHome(homeActiveItem);
    }

    /** The settings panel's `onClose`: the home item goes back to "api". */
    method CloseSettings()
      modifies this
      ensures !settingsOpen && homeActiveItem == DefaultHomeItem
      ensures historyOpen == old(historyOpen) && pathname == old(pathname) && search == old(search)
      ensures unreadCount == old(unreadCount)
      ensures old(OnePanel()) ==> OnePanel()
    {
      settingsOpen := false;
      homeActiveItem := DefaultHomeItem;
    }

    /** The history panel's `onClose`: the home item goes back to "api". */
    method CloseHistory()
      modifies this
      ensures !historyOpen && homeActiveItem == DefaultHomeItem
      ensures settingsOpen == old(settingsOpen) && pathname == old(pathname) && search == old(search)
      ensures unreadCount == old(unreadCount)
      ensures old(OnePanel()) ==> OnePanel()
    {
      historyOpen := false;
      homeActiveItem := DefaultHomeItem;
    }

    /** The history panel's `onOpenChat`: open the chat page with the id
        (already URI-encoded) in the query, and close the panel. Opening a
        second chat from a chat page keeps the path, so the badge is left. */
    method OpenChat(encodedChatId: string)
      modifies this
      ensures pathname == ChatPath && search == "?chatId=" + encodedChatId && !historyOpen
      ensures settingsOpen == old(settingsOpen) && homeActiveItem == old(homeActiveItem)
      ensures unreadCount == (if pathname != old(pathname) then UnreadAfterLeaving else old(unreadCount))
      ensures ActiveItem() == if settingsOpen then SettingsItem else homeActiveItem
    {
      Navigate(ChatPath, "?chatId=" + encodedChatId);
      historyOpen := false;
      assert pathname[1] != NotificationsPath[1] && pathname[1] != "/platforms"[1] && pathname[1] != "/my-listings"[1];
    }
  }
}

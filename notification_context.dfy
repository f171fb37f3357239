/** The in-memory notification view of
    mobile/components/notifications/NotificationContext.tsx: a reducer over
    `{ notifications, unreadCount, loading }` and a provider whose actions call
    the persisted store first and dispatch only once that call has returned. */
module NotificationContext {
  import opened Wrappers
  import opened Seqs
  import opened NotificationModel
  import opened NotificationService

  datatype NotificationState = NotificationState(
    notifications: seq<Notification>,
    unreadCount: int,
    loading: bool)

  datatype NotificationAction =
    | SetNotifications(list: seq<Notification>)
    | AddNotification(notification: Notification)
    | UpdateNotification(id: string, read: bool)
    | MarkAllRead
    | DeleteNotification(deleteId: string)
    | ClearAllNotifications
    | SetLoading(isLoading: bool)

  /** `initialState`: no notifications, count 0, loading. */
  const InitialState := NotificationState([], 0, true)

  /** The invariant the screen relies on: the badge count is the number of
      unread notifications. */
  predicate CountConsistent(s: NotificationState) {
    s.unreadCount == UnreadCount(s.notifications)
  }

  /** `notificationReducer`. */
  function Reduce(s: NotificationState, a: NotificationAction): (r: NotificationState)
    ensures a.SetNotifications? ==> r == NotificationState(a.list, UnreadCount(a.list), false)
    ensures a.AddNotification? ==>
      && r.notifications == [a.notification] + s.notifications
      && r.unreadCount == s.unreadCount + (if a.notification.read then 0 else 1)
      && r.loading == s.loading
    ensures a.UpdateNotification? ==>
      && r.notifications == WithReadFlag(s.notifications, a.id, a.read)
      && CountConsistent(r) && r.loading == s.loading
    ensures a.MarkAllRead? ==>
      r.notifications == AllRead(s.notifications) && r.unreadCount == 0 && r.loading == s.loading
    ensures a.DeleteNotification? ==>
      && r.notifications == WithoutId(s.notifications, a.deleteId)
      && CountConsistent(r) && r.loading == s.loading
    ensures a.ClearAllNotifications? ==> r == s.(notifications := [], unreadCount := 0)
    ensures a.SetLoading? ==> r == s.(loading := a.isLoading)
  {
    match a
    case SetNotifications(list) =>
      s.(notifications := list, unreadCount := |Filter(list, IsUnread)|, loading := false)
    case AddNotification(n) =>
      s.(notifications := [n] + s.notifications,
         unreadCount := s.unreadCount + (if n.read then 0 else 1))
    case UpdateNotification(id, read) =>
      var updated := WithReadFlag(s.notifications, id, read);
      s.(notifications := updated, unreadCount := |Filter(updated, IsUnread)|)
    case MarkAllRead =>
      s.(notifications := AllRead(s.notifications), unreadCount := 0)
    case DeleteNotification(id) =>
      var kept := WithoutId(s.notifications, id);
      s.(notifications := kept, unreadCount := |Filter(kept, IsUnread)|)
    case ClearAllNotifications =>
      s.(notifications := [], unreadCount := 0)
    case SetLoading(b) =>
      s.(loading := b)
  }

  /** Every action keeps the count consistent if it was consistent before. */
  lemma ReducePreservesCount(s: NotificationState, a: NotificationAction)
    requires CountConsistent(s)
    ensures CountConsistent(Reduce(s, a))
  {
    match a
    case AddNotification(n) =>
      FilterAppend([n], s.notifications, IsUnread);
    case MarkAllRead =>
      AllReadHasNoUnread(s.notifications);
    case _ =>
  }

  /** The actions that recompute the count restore consistency from any state;
      adding one notification keeps a wrong count wrong by the same amount. */
  lemma RecomputingActionsRestoreCount(s: NotificationState, a: NotificationAction)
    requires !a.AddNotification? && !a.SetLoading?
    ensures CountConsistent(Reduce(s, a))
  {
    if a.MarkAllRead? {
      AllReadHasNoUnread(s.notifications);
    }
  }

  /** Adding shifts the gap between the stored count and the true count by nothing. */
  lemma AddKeepsCountGap(s: NotificationState, n: Notification)
    ensures Reduce(s, AddNotification(n)).unreadCount - UnreadCount(Reduce(s, AddNotification(n)).notifications)
         == s.unreadCount - UnreadCount(s.notifications)
  {
    FilterAppend([n], s.notifications, IsUnread);
  }

  /** Consistency holds in every state reachable from the initial state. */
  lemma {:induction false} ReachableStatesConsistent(actions: seq<NotificationAction>)
    ensures CountConsistent(ReduceAll(InitialState, actions))
    decreases |actions|
  {
    if actions != [] {
      ReachableStatesConsistent(actions[..|actions| - 1]);
      ReducePreservesCount(ReduceAll(InitialState, actions[..|actions| - 1]), actions[|actions| - 1]);
    }
  }

  /** The state after dispatching the actions in order. */
  function ReduceAll(s: NotificationState, actions: seq<NotificationAction>): NotificationState
    decreases |actions|
  {
    if actions == [] then s
    else Reduce(ReduceAll(s, actions[..|actions| - 1]), actions[|actions| - 1])
  }

  /** The provider: the reducer state, and the persisted store its actions call. */
  class NotificationProvider {
    var state: NotificationState
    var store: NotificationStore

    /** Mounting the provider: `useReducer(notificationReducer, initialState)`. */
    constructor (store: NotificationStore)
      ensures this.store == store && state == InitialState
    {
      this.store := store;
      state := InitialState;
    }

    /** `initializeNotifications`: loading on, then the list read (`readOk`
        is false when the read fails and the service answers []). */
    method InitializeNotifications(readOk: bool)
      modifies this
      ensures store == old(store)
      ensures var list := ReadList(store.notifications, readOk);
        state == NotificationState(list, UnreadCount(list), false)
    {
      state := Reduce(state, NotificationAction.SetLoading(true));
      var list := store.GetNotifications(readOk);
      state := Reduce(state, NotificationAction.SetNotifications(list));
    }

    /** `fetchNotifications` and `refreshNotifications`: the list read. */
    method RefreshNotifications(readOk: bool)
      modifies this
      ensures store == old(store)
      ensures var list := ReadList(store.notifications, readOk);
        state == NotificationState(list, UnreadCount(list), false)
      ensures readOk ==> state.notifications == store.notifications
      ensures CountConsistent(state)
    {
      var list := store.GetNotifications(readOk);
      state := Reduce(state, NotificationAction.SetNotifications(list));
    }

    /** `markAsRead`. `readOk` is false when the service's read fails, which it
        catches and reads as []; `serviceOk` is false when the storage write
        throws: then nothing is stored and nothing is dispatched. A failed read
        empties the store while the screen keeps its list. */
    method MarkAsRead(id: string, readOk: bool, serviceOk: bool)
      modifies this, store
      ensures store == old(store) && store.settings == old(store.settings)
      ensures serviceOk ==>
        && store.notifications == WithReadFlag(ReadList(old(store.notifications), readOk), id, true)
        && state == Reduce(old(state), NotificationAction.UpdateNotification(id, true))
      ensures !serviceOk ==> store.notifications == old(store.notifications) && state == old(state)
      ensures readOk && old(state.notifications) == old(store.notifications) ==> state.notifications == store.notifications
      ensures serviceOk && !readOk ==> store.notifications == []
      ensures old(CountConsistent(state)) ==> CountConsistent(state)
    {
      if serviceOk {
        store.MarkAsRead(id, readOk);
        state := Reduce(state, NotificationAction.UpdateNotification(id, true));
      }
    }

    /** `markAllAsRead`. */
    method MarkAllAsRead(readOk: bool, serviceOk: bool)
      modifies this, store
      ensures store == old(store) && store.settings == old(store.settings)
      ensures serviceOk ==>
        && store.notifications == AllRead(ReadList(old(store.notifications), readOk))
        && state == Reduce(old(state), NotificationAction.MarkAllRead)
      ensures !serviceOk ==> store.notifications == old(store.notifications) && state == old(state)
      ensures readOk && old(state.notifications) == old(store.notifications) ==> state.notifications == store.notifications
      ensures serviceOk && !readOk ==> store.notifications == []
      ensures old(CountConsistent(state)) ==> CountConsistent(state)
    {
      if serviceOk {
        store.MarkAllAsRead(readOk);
        AllReadHasNoUnread(state.notifications);
        state := Reduce(state, NotificationAction.MarkAllRead);
      }
    }

    /** `deleteNotification`. */
    method DeleteNotification(id: string, readOk: bool, serviceOk: bool)
      modifies this, store
      ensures store == old(store) && store.settings == old(store.settings)
      ensures serviceOk ==>
        && store.notifications == WithoutId(ReadList(old(store.notifications), readOk), id)
        && state == Reduce(old(state), NotificationAction.DeleteNotification(id))
      ensures !serviceOk ==> store.notifications == old(store.notifications) && state == old(state)
      ensures readOk && old(state.notifications) == old(store.notifications) ==> state.notifications == store.notifications
      ensures serviceOk && !readOk ==> store.notifications == []
      ensures old(CountConsistent(state)) ==> CountConsistent(state)
    {
      if serviceOk {
        store.DeleteNotification(id, readOk);
        state := Reduce(state, NotificationAction.DeleteNotification(id));
      }
    }

    /** `clearAllNotifications`. */
    method ClearAllNotifications(serviceOk: bool)
      modifies this, store
      ensures store == old(store) && store.settings == old(store.settings)
      ensures serviceOk ==> store.notifications == [] && state == Reduce(old(state), NotificationAction.ClearAllNotifications)
      ensures !serviceOk ==> store.notifications == old(store.notifications) && state == old(state)
      ensures old(state.notifications) == old(store.notifications) ==> state.notifications == store.notifications
      ensures old(CountConsistent(state)) ==> CountConsistent(state)
    {
      if serviceOk {
        store.ClearAllNotifications();
        state := Reduce(state, NotificationAction.ClearAllNotifications);
      }
    }
  }
}

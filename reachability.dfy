/**
 * ASReachability: the classification of a reachability flag set into a status
 * and the debounced flag update that notifies the listener.
 */
module Reachability {
  import Common

  /** The bits of `SCNetworkReachabilityFlags`. */
  datatype Flag =
    | TransientConnection | Reachable | ConnectionRequired | ConnectionOnTraffic
    | InterventionRequired | ConnectionOnDemand | IsLocalAddress | IsDirect | IsWWAN

  /** A flag set; two flag sets are equal exactly when they hold the same bits. */
  type Flags = set<Flag>

  /** `ASReachabilityStatus` */
  datatype Status = None | Wwan | Wifi

  /** `isNetworkReachable(flags:)` */
  function IsNetworkReachable(flags: Flags): (reachable: bool)
    ensures Reachable !in flags ==> !reachable
    ensures Reachable in flags && ConnectionRequired !in flags ==> reachable
    ensures ConnectionRequired in flags ==>
              (reachable <==> Reachable in flags
                              && (ConnectionOnDemand in flags || ConnectionOnTraffic in flags)
                              && InterventionRequired !in flags)
  {
    var isReachable := Reachable in flags;
    var needsConnection := ConnectionRequired in flags;
    var canConnectAutomatically := ConnectionOnDemand in flags || ConnectionOnTraffic in flags;
    var canConnectWithoutUserInteraction := canConnectAutomatically && InterventionRequired !in flags;
    isReachable && (!needsConnection || canConnectWithoutUserInteraction)
  }

  /** The status `reachabilityStatus()` derives from a flag set. */
  function StatusOf(flags: Flags): (status: Status)
    ensures status == None <==> !IsNetworkReachable(flags)
    ensures status == Wwan <==> IsNetworkReachable(flags) && IsWWAN in flags
    ensures status == Wifi <==> IsNetworkReachable(flags) && IsWWAN !in flags
  {
    if !IsNetworkReachable(flags) then None
    else if IsWWAN in flags then Wwan
    else Wifi
  }

  /** The listener calls one `flagsChanged(flags:)` makes, starting from the stored flags `current`. */
  function Notified(listener: Common.Option<Common.HandlerId>, current: Flags, flags: Flags): (calls: seq<(Common.HandlerId, Status)>)
    ensures current == flags ==> calls == []
    ensures current != flags && listener.Some? ==> calls == [(listener.value, StatusOf(flags))]
    ensures listener.None? ==> calls == []
  {
    if current == flags || listener.None? then [] else [(listener.value, StatusOf(flags))]
  }

  /** `ASReachability`: the last observed flags, the listener, and the calls made to listeners so far. */
  class Monitor {
    var currentFlags: Flags
    var listener: Common.Option<Common.HandlerId>
    var notifications: seq<(Common.HandlerId, Status)>

    constructor ()
      ensures currentFlags == {} && listener == Common.None && notifications == []
      ensures StatusOf(currentFlags) == None
    {
      currentFlags := {};
      listener := Common.None;
      notifications := [];
    }

    /** `flagsChanged(flags:)`: nothing happens when the flags are the stored ones. */
    method FlagsChanged(flags: Flags)
      modifies this`currentFlags, this`notifications
      ensures currentFlags == flags
      ensures notifications == old(notifications) + Notified(listener, old(currentFlags), flags)
      ensures old(currentFlags) == flags ==> notifications == old(notifications)
    {
      if currentFlags == flags {
        return;
      }
      currentFlags := flags;
      var status := ReachabilityStatus();
      if listener.Some? {
        notifications := notifications + [(listener.value, status)];
      }
    }

    /** `reachabilityStatus()` */
    method ReachabilityStatus() returns (status: Status)
      ensures status == StatusOf(currentFlags)
      ensures status == None <==> !IsNetworkReachable(currentFlags)
    {
      status := StatusOf(currentFlags);
    }
  }

  // ---------------------------------------- runs of flag-change notifications

  /**
   * The listener calls a run of `flagsChanged` calls makes when `listener` is
   * set throughout, starting from the stored flags `current`: the steps of
   * `Monitor.FlagsChanged` one after another.
   */
  function Notifications(listener: Common.HandlerId, current: Flags, updates: seq<Flags>): seq<(Common.HandlerId, Status)>
    decreases |updates|
  {
    if updates == [] then []
    else Notified(Common.Some(listener), current, updates[0]) + Notifications(listener, updates[0], updates[1..])
  }

  /** The stored flags after a run of `flagsChanged` calls. */
  function FinalFlags(current: Flags, updates: seq<Flags>): Flags {
    if updates == [] then current else updates[|updates| - 1]
  }

  /** A run never notifies more often than it has calls, and only the set listener is called. */
  lemma {:induction false} NotificationsBounded(listener: Common.HandlerId, current: Flags, updates: seq<Flags>)
    ensures |Notifications(listener, current, updates)| <= |updates|
    ensures forall k :: 0 <= k < |Notifications(listener, current, updates)| ==>
              Notifications(listener, current, updates)[k].0 == listener
    decreases |updates|
  {
    if updates != [] {
      NotificationsBounded(listener, updates[0], updates[1..]);
    }
  }

  /** Repeating a call right after itself adds no notification: the repeat is debounced. */
  lemma {:induction false} RepeatedCallIsSilent(listener: Common.HandlerId, current: Flags, updates: seq<Flags>, i: nat)
    requires i < |updates|
    ensures Notifications(listener, current, updates[..i + 1] + [updates[i]] + updates[i + 1..])
            == Notifications(listener, current, updates)
    decreases i
  {
    var longer := updates[..i + 1] + [updates[i]] + updates[i + 1..];
    if i == 0 {
      assert longer[0] == updates[0];
      assert longer[1..] == [updates[0]] + updates[1..];
      assert Notifications(listener, updates[0], longer[1..]) == Notifications(listener, updates[0], updates[1..]);
    } else {
      assert longer[0] == updates[0];
      assert longer[1..] == updates[1..][..i] + [updates[1..][i - 1]] + updates[1..][i..];
      RepeatedCallIsSilent(listener, updates[0], updates[1..], i - 1);
    }
  }

  /** Two identical consecutive calls give the listener at most one call. */
  lemma IdenticalPairNotifiesAtMostOnce(listener: Common.HandlerId, current: Flags, flags: Flags)
    ensures |Notifications(listener, current, [flags, flags])| <= 1
  {
    RepeatedCallIsSilent(listener, current, [flags], 0);
    NotificationsBounded(listener, current, [flags]);
  }

  /** The last status a listener received is the status of the flags stored at the end of the run. */
  lemma {:induction false} LastNotificationIsCurrentStatus(listener: Common.HandlerId, current: Flags, updates: seq<Flags>)
    requires Notifications(listener, current, updates) != []
    ensures var n := Notifications(listener, current, updates);
            n[|n| - 1].1 == StatusOf(FinalFlags(current, updates))
    decreases |updates|
  {
    var rest := Notifications(listener, updates[0], updates[1..]);
    if rest == [] {
      assert FinalFlags(current, updates) == updates[0] by {
        NoNotificationKeepsFlags(listener, updates[0], updates[1..]);
      }
    } else {
      LastNotificationIsCurrentStatus(listener, updates[0], updates[1..]);
      assert updates[1..] != [];
      assert FinalFlags(updates[0], updates[1..]) == FinalFlags(current, updates);
    }
  }

  /** A run that notifies nobody ends on the flags it started from. */
  lemma {:induction false} NoNotificationKeepsFlags(listener: Common.HandlerId, current: Flags, updates: seq<Flags>)
    requires Notifications(listener, current, updates) == []
    ensures FinalFlags(current, updates) == current
    decreases |updates|
  {
    if updates != [] {
      assert updates[0] == current;
      NoNotificationKeepsFlags(listener, updates[0], updates[1..]);
      if updates[1..] != [] {
        assert updates[|updates| - 1] == updates[1..][|updates[1..]| - 1];
      }
    }
  }
}

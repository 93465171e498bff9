/**
 * The reachability wrapper: the tests on the platform's reachability flags,
 * the network status derived from them, and the notifier switch.
 */
module Reach {
  import opened Wrappers

  /** The platform's reachability flags, as the set of those that are raised. */
  datatype ReachFlag =
    | TransientConnection | Reachable | ConnectionRequired | ConnectionOnTraffic
    | InterventionRequired | ConnectionOnDemand | IsLocalAddress | IsDirect | IsWWAN

  type Flags = set<ReachFlag>

  datatype NetworkStatus = NotReachable | ReachableViaWiFi | ReachableViaWWAN

  /** `isOnWWAN(_:)` */
  predicate IsOnWWAN(flags: Flags) { IsWWAN in flags }

  /** `isReachable(_:)`: the reachable flag alone. */
  predicate HasReachableFlag(flags: Flags) { Reachable in flags }

  /** `isConnectionRequiredOrTransient(_:)`: the intersection with {required, transient} is all of it. */
  predicate IsConnectionRequiredOrTransient(flags: Flags)
  {
    flags * {ConnectionRequired, TransientConnection} == {ConnectionRequired, TransientConnection}
  }

  /** `isReachable(with:)` */
  predicate IsReachableWith(flags: Flags)
  {
    HasReachableFlag(flags) || !IsConnectionRequiredOrTransient(flags)
  }

  /**
   * `isReachableWithTest(_:)`: false without a reachability reference or when
   * reading the flags fails (`read` is `None`), the test's answer otherwise.
   */
  function WithTest(hasRef: bool, read: Option<Flags>, test: Flags -> bool): (r: bool)
    ensures !hasRef || read.None? ==> !r
    ensures hasRef && read.Some? ==> r == test(read.value)
  {
    if !hasRef then false else if read.Some? then test(read.value) else false
  }

  /** The test behind `isReachableViaWiFi`. */
  predicate ViaWiFiTest(onDevice: bool, flags: Flags)
  {
    if !HasReachableFlag(flags) then false
    else if onDevice && IsOnWWAN(flags) then false
    else true
  }

  /** `isReachable` */
  function IsReachable(hasRef: bool, read: Option<Flags>): bool
  {
    WithTest(hasRef, read, IsReachableWith)
  }

  /** `isReachableViaWiFi` */
  function IsReachableViaWiFi(hasRef: bool, read: Option<Flags>, onDevice: bool): bool
  {
    WithTest(hasRef, read, flags => ViaWiFiTest(onDevice, flags))
  }

  /** `reachabilityFlags`: the flags read, empty without a reference or on a failed read. */
  function ReachabilityFlags(hasRef: bool, read: Option<Flags>): (r: Flags)
    ensures !hasRef || read.None? ==> r == {}
    ensures hasRef && read.Some? ==> r == read.value
  {
    if hasRef && read.Some? then read.value else {}
  }

  /** `currentReachabilityStatus`, from one reading of the flags. */
  function CurrentStatus(hasRef: bool, read: Option<Flags>, onDevice: bool): NetworkStatus
  {
    if IsReachable(hasRef, read) then
      if IsReachableViaWiFi(hasRef, read, onDevice) then ReachableViaWiFi
      else if onDevice then ReachableViaWWAN
      else NotReachable
    else NotReachable
  }

  /** The connection-required-or-transient test holds exactly when both flags are raised. */
  lemma RequiredOrTransientMeansBoth(flags: Flags)
    ensures IsConnectionRequiredOrTransient(flags) <==> ConnectionRequired in flags && TransientConnection in flags
  {
    if ConnectionRequired in flags && TransientConnection in flags {
      assert flags * {ConnectionRequired, TransientConnection} == {ConnectionRequired, TransientConnection};
    }
  }

  /** Reachable means the reachable flag, or not both of the required and transient flags. */
  lemma {:induction false} ReachableWithMeaning(flags: Flags)
    ensures IsReachableWith(flags) <==>
      Reachable in flags || !(ConnectionRequired in flags && TransientConnection in flags)
  {
    RequiredOrTransientMeansBoth(flags);
  }

  /** An empty flag set counts as reachable, though not via WiFi. */
  lemma {:induction false} EmptyFlagsAreReachable(onDevice: bool)
    ensures IsReachable(true, Some({}))
    ensures !IsReachableViaWiFi(true, Some({}), onDevice)
    ensures CurrentStatus(true, Some({}), onDevice) == if onDevice then ReachableViaWWAN else NotReachable
  {
    RequiredOrTransientMeansBoth({});
  }

  /** WiFi reachability: false without the reachable flag, false on a device with the WWAN flag, true otherwise. */
  lemma ViaWiFiMeaning(flags: Flags, onDevice: bool)
    ensures IsReachableViaWiFi(true, Some(flags), onDevice) <==> Reachable in flags && !(onDevice && IsWWAN in flags)
    ensures !IsReachableViaWiFi(false, Some(flags), onDevice) && !IsReachableViaWiFi(true, None, onDevice)
  {
  }

  /** The status: via WiFi when reachable via WiFi, else via WWAN when reachable on a device, else not reachable. */
  lemma {:induction false} StatusMeaning(hasRef: bool, read: Option<Flags>, onDevice: bool)
    ensures CurrentStatus(hasRef, read, onDevice) == ReachableViaWiFi <==>
      hasRef && read.Some? && Reachable in read.value && !(onDevice && IsWWAN in read.value)
    ensures CurrentStatus(hasRef, read, onDevice) == ReachableViaWWAN <==>
      IsReachable(hasRef, read) && !IsReachableViaWiFi(hasRef, read, onDevice) && onDevice
    ensures !hasRef || read.None? ==> CurrentStatus(hasRef, read, onDevice) == NotReachable
  {
    if hasRef && read.Some? {
      ReachableWithMeaning(read.value);
    }
  }

  /** `Reachability`: a reference to the platform object, and whether its notifier is running. */
  class Reachability {
    const hasRef: bool
    /** True on a device, false in the simulator. */
    const isRunningOnDevice: bool
    var notifierRunning: bool

    constructor (hasRef: bool, isRunningOnDevice: bool)
      ensures this.hasRef == hasRef && this.isRunningOnDevice == isRunningOnDevice && !notifierRunning
    {
      this.hasRef := hasRef;
      this.isRunningOnDevice := isRunningOnDevice;
      notifierRunning := false;
    }

    /** `currentReachabilityStatus` for the flags the platform reports. */
    function Status(read: Option<Flags>): NetworkStatus
      reads this
    {
      CurrentStatus(hasRef, read, isRunningOnDevice)
    }

    /**
     * `startNotifier()`: already running is a success; otherwise it needs a
     * reference and both platform registrations (`callbackSet`, then
     * `queueSet`, tried only after the first succeeded).
     */
    method StartNotifier(callbackSet: bool, queueSet: bool) returns (ok: bool)
      modifies this
      ensures old(notifierRunning) ==> ok && notifierRunning
      ensures !old(notifierRunning) ==> ok == (hasRef && callbackSet && queueSet) && notifierRunning == ok
    {
      if notifierRunning {
        return true;
      }
      if !hasRef {
        return false;
      }
      if callbackSet && queueSet {
        notifierRunning := true;
        return true;
      }
      StopNotifier();
      return false;
    }

    /** `stopNotifier()` */
    method StopNotifier()
      modifies this
      ensures !notifierRunning
    {
      notifierRunning := false;
    }
  }
}

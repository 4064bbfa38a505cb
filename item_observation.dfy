/**
 * `PlayerItemObserver`: a shim that observes three properties of a player
 * item through key-value observation, all under one context, and turns each
 * notification into calls of two optional closures, `playbackReady` and
 * `bufferedTimeUpdated`.
 *
 * Media times are an opaque type parameter. A closure is modelled by whether
 * its slot is set; a call of it is an `Event` carrying its argument.
 */
module ItemObservation {
  import opened Wrappers

  /** The observed properties of a player item. */
  datatype KeyPath = PlaybackBufferFull | PlaybackLikelyToKeepUp | LoadedTimeRanges

  /** The context pointer a notification carries: the shim's own, or anyone else's. */
  datatype Context = BufferContext | OtherContext(address: nat)

  datatype TimeRange<Time> = TimeRange(start: Time, end: Time)

  /** What the shim reads from the player item named by a notification. */
  datatype ItemStatus<Time> = ItemStatus(
    isPlaybackBufferFull: bool,
    isPlaybackLikelyToKeepUp: bool,
    loadedTimeRanges: seq<TimeRange<Time>>)

  /**
   * One call of `observeValue`: whether a change dictionary came with it, its
   * context, and the observed object if that object is a player item.
   */
  datatype Notification<Time> = Notification(
    changePresent: bool,
    context: Option<Context>,
    item: Option<ItemStatus<Time>>)

  /** Which of the two callback slots are set. */
  datatype Callbacks = Callbacks(playbackReady: bool, bufferedTimeUpdated: bool)

  /** A callback invoked with its argument, or the notification handed on to the superclass. */
  datatype Event<Time> = PlaybackReady(isReady: bool) | BufferedTimeUpdated(time: Time) | ForwardedToSuperclass

  /**
   * The callbacks one notification fires, in order. A missing change, a
   * missing context, or an object under the shim's context that is not a
   * player item stop the program, so they are required not to happen.
   */
  function Dispatch<Time>(callbacks: Callbacks, n: Notification<Time>): (events: seq<Event<Time>>)
    requires n.changePresent
    requires n.context.Some?
    requires n.context == Some(BufferContext) ==> n.item.Some?
    ensures n.context != Some(BufferContext) ==> events == [ForwardedToSuperclass]
    ensures n.context == Some(BufferContext) ==>
      var status := n.item.value;
      var ranges := status.loadedTimeRanges;
      && ForwardedToSuperclass !in events
      && (forall i, j :: 0 <= i < j < |events| ==> events[i].PlaybackReady? && events[j].BufferedTimeUpdated?)
      && (callbacks.playbackReady ==>
            |events| > 0 && events[0] == PlaybackReady(status.isPlaybackBufferFull || status.isPlaybackLikelyToKeepUp))
      && (!callbacks.playbackReady ==> forall e :: e in events ==> !e.PlaybackReady?)
      && (callbacks.bufferedTimeUpdated && |ranges| > 0 ==>
            |events| > 0 && events[|events| - 1] == BufferedTimeUpdated(ranges[|ranges| - 1].end))
      && (!callbacks.bufferedTimeUpdated || |ranges| == 0 ==> forall e :: e in events ==> !e.BufferedTimeUpdated?)
      && (forall e :: e in events ==> e.PlaybackReady? || e.BufferedTimeUpdated?)
  {
    if n.context == Some(BufferContext) then
      var status := n.item.value;
      var isReady := status.isPlaybackBufferFull || status.isPlaybackLikelyToKeepUp;
      var ranges := status.loadedTimeRanges;
      (if callbacks.playbackReady then [PlaybackReady(isReady)] else [])
      + (if |ranges| > 0 && callbacks.bufferedTimeUpdated then [BufferedTimeUpdated(ranges[|ranges| - 1].end)] else [])
    else
      [ForwardedToSuperclass]
  }

  /**
   * The two slots fire independently: what a notification fires is what the
   * `playbackReady` slot alone fires followed by what the
   * `bufferedTimeUpdated` slot alone fires.
   */
  lemma CallbackSlotsAreIndependent<Time>(callbacks: Callbacks, n: Notification<Time>)
    requires n.changePresent && n.context == Some(BufferContext) && n.item.Some?
    ensures Dispatch(callbacks, n)
         == Dispatch(callbacks.(bufferedTimeUpdated := false), n) + Dispatch(callbacks.(playbackReady := false), n)
    ensures Dispatch(Callbacks(false, false), n) == []
  {
  }

  /** With ranges (0, 2) and (3, 7) loaded, the buffered time sent is 7, the end of the last range. */
  lemma BufferedTimeIsEndOfLastRange(callbacks: Callbacks)
    requires callbacks.bufferedTimeUpdated
    ensures var status := ItemStatus(true, false, [TimeRange(0, 2), TimeRange(3, 7)]);
      BufferedTimeUpdated(7) in Dispatch(callbacks, Notification(true, Some(BufferContext), Some(status)))
      && BufferedTimeUpdated(2) !in Dispatch(callbacks, Notification(true, Some(BufferContext), Some(status)))
  {
  }

  /** The options of one registration: report the current value at once, and the new and old values on each change. */
  datatype ObservingOptions = ObservingOptions(reportInitial: bool, reportNew: bool, reportOld: bool)

  /** The shim registers every key path with `[.initial, .new, .old]`. */
  const ShimOptions := ObservingOptions(true, true, true)

  /** The notification an `.initial` registration delivers at once: a change, the shim's context, the item. */
  function InitialNotification<Time>(status: ItemStatus<Time>): Notification<Time>
  {
    Notification(true, Some(BufferContext), Some(status))
  }

  /** One key-value observation registration on a player item. */
  datatype Registration = Registration(observer: object, keyPath: KeyPath, context: Context)

  /** The registrations one shim holds while attached: each observed key path once, under its context. */
  function Registered(observer: object): (regs: multiset<Registration>)
    ensures |regs| == 3
    ensures forall r :: r in regs ==> r.observer == observer && r.context == BufferContext
  {
    multiset{
      Registration(observer, PlaybackBufferFull, BufferContext),
      Registration(observer, PlaybackLikelyToKeepUp, BufferContext),
      Registration(observer, LoadedTimeRanges, BufferContext)}
  }

  /** Every observed key path is registered exactly once, under the shim's context. */
  lemma EachKeyPathRegisteredOnce(observer: object)
    ensures forall k: KeyPath :: Registered(observer)[Registration(observer, k, BufferContext)] == 1
  {
    forall k: KeyPath
      ensures Registered(observer)[Registration(observer, k, BufferContext)] == 1
    {
      match k
      case PlaybackBufferFull =>
      case PlaybackLikelyToKeepUp =>
      case LoadedTimeRanges =>
    }
  }

  /**
   * Removing the three registrations in teardown's order (keep-up, buffer-full,
   * ranges) is legal step by step and takes back exactly `Registered(observer)`.
   */
  lemma RemovalTakesBackRegistered(before: multiset<Registration>, observer: object)
    requires Registered(observer) <= before
    ensures Registration(observer, PlaybackLikelyToKeepUp, BufferContext) in before
    ensures Registration(observer, PlaybackBufferFull, BufferContext)
              in before - multiset{Registration(observer, PlaybackLikelyToKeepUp, BufferContext)}
    ensures Registration(observer, LoadedTimeRanges, BufferContext)
              in before - multiset{Registration(observer, PlaybackLikelyToKeepUp, BufferContext)}
                        - multiset{Registration(observer, PlaybackBufferFull, BufferContext)}
    ensures before - multiset{Registration(observer, PlaybackLikelyToKeepUp, BufferContext)}
                   - multiset{Registration(observer, PlaybackBufferFull, BufferContext)}
                   - multiset{Registration(observer, LoadedTimeRanges, BufferContext)}
         == before - Registered(observer)
  {
  }

  /** The part of `AVPlayerItem` the shim touches: its status and its observers. */
  class PlayerItem<Time> {
    var status: ItemStatus<Time>
    var registrations: multiset<Registration>

    constructor (status: ItemStatus<Time>)
      ensures this.status == status && registrations == multiset{}
    {
      this.status := status;
      registrations := multiset{};
    }

    /**
     * Registers `observer`. With `.initial` among the options, the observer is
     * notified of the current status before the call returns; `initial` is
     * the status that notification carries.
     */
    method AddObserver(observer: object, keyPath: KeyPath, options: ObservingOptions, context: Context)
      returns (initial: Option<ItemStatus<Time>>)
      modifies this`registrations
      ensures registrations == old(registrations) + multiset{Registration(observer, keyPath, context)}
      ensures initial == if options.reportInitial then Some(status) else None
    {
      registrations := registrations + multiset{Registration(observer, keyPath, context)};
      initial := if options.reportInitial then Some(status) else None;
    }

    /** Removing an observer that is not registered raises an exception, so it must be registered. */
    method RemoveObserver(observer: object, keyPath: KeyPath, context: Context)
      requires Registration(observer, keyPath, context) in registrations
      modifies this`registrations
      ensures registrations == old(registrations) - multiset{Registration(observer, keyPath, context)}
    {
      registrations := registrations - multiset{Registration(observer, keyPath, context)};
    }
  }

  /**
   * Constructing a shim on an item and releasing it again leaves the item's
   * registrations exactly as they were: nothing leaked, nothing removed twice.
   */
  method RegisterThenTeardown<Time>(callbacks: Callbacks, item: PlayerItem<Time>)
    modifies item`registrations
    ensures item.registrations == old(item.registrations)
  {
    var shim := new PlayerItemObserver(callbacks, item);
    shim.Deinit();
  }

  /** The closure `removeObserver`: a no-op until registration is done, then the remover of the three registrations. */
  datatype Remover<Time> = NoOp | RemoveFrom(item: PlayerItem<Time>)

  class PlayerItemObserver<Time> {
    const callbacks: Callbacks
    var removeObserver: Remover<Time>
    /** The callbacks fired, in order, by the notifications delivered while `init` registers. */
    var initialEvents: seq<Event<Time>>
    /** Whether `deinit` has run. */
    ghost var released: bool

    /**
     * Registers the shim for the three key paths under its context, then arms
     * the remover. Each registration asks for `.initial`, so each delivers one
     * notification of the item's current status during construction.
     */
    constructor (callbacks: Callbacks, playerItem: PlayerItem<Time>)
      modifies playerItem`registrations
      ensures this.callbacks == callbacks && !released
      ensures removeObserver == RemoveFrom(playerItem)
      ensures playerItem.registrations == old(playerItem.registrations) + Registered(this)
      ensures var fired := Dispatch(callbacks, InitialNotification(playerItem.status));
        initialEvents == fired + fired + fired
    {
      this.callbacks := callbacks;
      removeObserver := NoOp;
      initialEvents := [];
      released := false;
      new;
      ghost var status, before := playerItem.status, playerItem.registrations;
      ghost var fired := Dispatch(callbacks, InitialNotification(status));
      AddObserverTo(playerItem, PlaybackBufferFull, fired);
      AddObserverTo(playerItem, PlaybackLikelyToKeepUp, fired);
      AddObserverTo(playerItem, LoadedTimeRanges, fired);
      assert playerItem.registrations == before
        + multiset{Registration(this, PlaybackBufferFull, BufferContext)}
        + multiset{Registration(this, PlaybackLikelyToKeepUp, BufferContext)}
        + multiset{Registration(this, LoadedTimeRanges, BufferContext)};
      removeObserver := RemoveFrom(playerItem);
    }

    /**
     * One `addObserver` call of `init`: registers the shim for `keyPath` under
     * its context with the shim's options, and handles the notification that
     * `.initial` delivers at once, recording what it fired (`fired`, the
     * events `Dispatch` decides on for the item's status). It runs only
     * while the remover is still the no-op one, that is, during `init`.
     */
    method AddObserverTo(playerItem: PlayerItem<Time>, keyPath: KeyPath, ghost fired: seq<Event<Time>>)
      requires removeObserver.NoOp?
      requires fired == Dispatch(callbacks, InitialNotification(playerItem.status))
      modifies playerItem`registrations, this`initialEvents
      ensures playerItem.registrations == old(playerItem.registrations) + multiset{Registration(this, keyPath, BufferContext)}
      ensures initialEvents == old(initialEvents) + fired
    {
      var initial := playerItem.AddObserver(this, keyPath, ShimOptions, BufferContext);
      if initial.Some? {
        var events := ObserveValue(InitialNotification(initial.value));
        initialEvents := initialEvents + events;
      }
    }

    /** `observeValue`: fires the callbacks `Dispatch` decides on. */
    method ObserveValue(n: Notification<Time>) returns (events: seq<Event<Time>>)
      requires n.changePresent
      requires n.context.Some?
      requires n.context == Some(BufferContext) ==> n.item.Some?
      ensures events == Dispatch(callbacks, n)
    {
      if n.context == Some(BufferContext) {
        var status := n.item.value;
        var isReady := status.isPlaybackBufferFull || status.isPlaybackLikelyToKeepUp;
        events := [];
        if callbacks.playbackReady {
          events := events + [PlaybackReady(isReady)];
        }
        var ranges := status.loadedTimeRanges;
        if |ranges| > 0 {
          if callbacks.bufferedTimeUpdated {
            events := events + [BufferedTimeUpdated(ranges[|ranges| - 1].end)];
          }
        }
      } else {
        events := [ForwardedToSuperclass];
      }
    }

    /**
     * `deinit`, which runs once: calls the remover, which takes back exactly
     * the three registrations construction made, each once.
     */
    method Deinit()
      requires !released
      requires removeObserver.RemoveFrom? ==> Registered(this) <= removeObserver.item.registrations
      modifies this`released, (if removeObserver.RemoveFrom? then {removeObserver.item} else {})`registrations
      ensures released && removeObserver == old(removeObserver)
      ensures removeObserver.RemoveFrom? ==>
        removeObserver.item.registrations == old(removeObserver.item.registrations) - Registered(this)
    {
      match removeObserver {
        case NoOp =>
        case RemoveFrom(item) =>
          RemovalTakesBackRegistered(item.registrations, this);
          item.RemoveObserver(this, PlaybackLikelyToKeepUp, BufferContext);
          item.RemoveObserver(this, PlaybackBufferFull, BufferContext);
          item.RemoveObserver(this, LoadedTimeRanges, BufferContext);
      }
      released := true;
    }
  }
}

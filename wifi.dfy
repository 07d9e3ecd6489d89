/** The station-mode WiFi component: a retry machine driven by SDK events, and
    the connected/fail bits of its event group. */
module Wifi {
  import opened Esp

  const MaximumRetry: nat := 5

  /** The events the handler is registered for (any WIFI_EVENT, and GOT_IP). */
  datatype Event = StaStart | StaDisconnected | OtherWifiEvent | GotIp | OtherIpEvent

  /** The SDK calls the component makes. */
  datatype SdkCall = Connect | Disconnect

  /** retry_count and the two bits of the event group. */
  datatype Status = Status(retryCount: nat, connected: bool, failed: bool)

  /** The SDK calls in a trace that are `c`. */
  function Count(calls: seq<SdkCall>, c: SdkCall): (n: nat)
    ensures n <= |calls|
  {
    if calls == [] then 0
    else Count(calls[..|calls| - 1], c) + (if calls[|calls| - 1] == c then 1 else 0)
  }

  /** wifi_event_handler: the new status and the SDK calls made. */
  function Handle(s: Status, e: Event): (res: (Status, seq<SdkCall>))
    ensures e == StaStart ==> res == (s, [Connect])
    ensures e == StaDisconnected && s.retryCount < MaximumRetry ==>
              res == (s.(retryCount := s.retryCount + 1), [Connect])
    ensures e == StaDisconnected && s.retryCount >= MaximumRetry ==>
              res == (s.(failed := true), [])
    ensures e == GotIp ==> res == (s.(retryCount := 0, connected := true), [])
    ensures e in {OtherWifiEvent, OtherIpEvent} ==> res == (s, [])
  {
    match e
    case StaStart => (s, [Connect])
    case StaDisconnected =>
      if s.retryCount < MaximumRetry then (s.(retryCount := s.retryCount + 1), [Connect])
      else (s.(failed := true), [])
    case GotIp => (s.(retryCount := 0, connected := true), [])
    case _ => (s, [])
  }

  /** The status and SDK calls after a sequence of events. */
  function Run(s: Status, events: seq<Event>): (Status, seq<SdkCall>)
  {
    if events == [] then (s, [])
    else
      var (mid, before) := Run(s, events[..|events| - 1]);
      var (last, calls) := Handle(mid, events[|events| - 1]);
      (last, before + calls)
  }

  /** 0 <= retry_count <= MAXIMUM_RETRY is kept by every event sequence. */
  lemma {:induction false} RetryCountBounded(s: Status, events: seq<Event>)
    requires s.retryCount <= MaximumRetry
    ensures Run(s, events).0.retryCount <= MaximumRetry
  {
    if events != [] {
      RetryCountBounded(s, events[..|events| - 1]);
    }
  }

  /** No event clears the connected bit: once set it stays set, also across
      later disconnections. */
  lemma {:induction false} ConnectedIsSticky(s: Status, events: seq<Event>)
    requires s.connected
    ensures Run(s, events).0.connected
  {
    if events != [] {
      ConnectedIsSticky(s, events[..|events| - 1]);
    }
  }

  /** The fail bit is never cleared either. */
  lemma {:induction false} FailedIsSticky(s: Status, events: seq<Event>)
    requires s.failed
    ensures Run(s, events).0.failed
  {
    if events != [] {
      FailedIsSticky(s, events[..|events| - 1]);
    }
  }

  function Disconnections(k: nat): (events: seq<Event>)
    ensures |events| == k && forall i :: 0 <= i < k ==> events[i] == StaDisconnected
  {
    if k == 0 then [] else Disconnections(k - 1) + [StaDisconnected]
  }

  function Min(a: nat, b: nat): nat { if a <= b then a else b }

  /** A run of k disconnections reconnects while retries remain and then sets the
      fail bit: min(k, 5 - retry_count) connects are issued, retry_count climbs to
      at most 5, and the fail bit is set exactly when k exceeds the retries left. */
  lemma {:induction false} DisconnectionsExhaustRetries(s: Status, k: nat)
    requires s.retryCount <= MaximumRetry
    ensures Exhausted(s, k, Run(s, Disconnections(k)))
  {
    if k > 0 {
      var events := Disconnections(k - 1);
      DisconnectionsExhaustRetries(s, k - 1);
      assert Disconnections(k) == events + [StaDisconnected];
      RunSnoc(s, events, StaDisconnected);
      DisconnectStep(s, k, Run(s, events));
    }
  }

  /** The outcome `r` of k disconnections from `s`, as the lemma above states it. */
  predicate Exhausted(s: Status, k: nat, r: (Status, seq<SdkCall>))
    requires s.retryCount <= MaximumRetry
  {
    && r.0.retryCount == Min(MaximumRetry, s.retryCount + k)
    && r.0.connected == s.connected
    && r.0.failed == (s.failed || s.retryCount + k > MaximumRetry)
    && Count(r.1, Connect) == Min(k, MaximumRetry - s.retryCount)
    && Count(r.1, Disconnect) == 0
  }

  /** One more disconnection after k - 1 of them. */
  lemma DisconnectStep(s: Status, k: nat, r: (Status, seq<SdkCall>))
    requires s.retryCount <= MaximumRetry && k > 0 && Exhausted(s, k - 1, r)
    ensures Exhausted(s, k, (Handle(r.0, StaDisconnected).0, r.1 + Handle(r.0, StaDisconnected).1))
  {
    var calls := Handle(r.0, StaDisconnected).1;
    CountAppend(r.1, calls, Connect);
    CountAppend(r.1, calls, Disconnect);
    if s.retryCount + k <= MaximumRetry {
      assert r.0.retryCount < MaximumRetry && calls == [Connect];
    } else {
      assert r.0.retryCount == MaximumRetry && calls == [];
    }
  }

  /** Running one more event is handling it after the run. */
  lemma RunSnoc(s: Status, events: seq<Event>, e: Event)
    ensures Run(s, events + [e]) == (Handle(Run(s, events).0, e).0, Run(s, events).1 + Handle(Run(s, events).0, e).1)
  {
    assert (events + [e])[..|events|] == events;
  }

  lemma {:induction false} CountAppend(a: seq<SdkCall>, b: seq<SdkCall>, c: SdkCall)
    requires |b| <= 1
    ensures Count(a + b, c) == Count(a, c) + Count(b, c)
  {
    if b != [] {
      assert (a + b)[..|a + b| - 1] == a;
      assert b[..0] == [];
    } else {
      assert a + b == a;
    }
  }

  /** The module state of wifi.c. */
  class Station {
    var hasEventGroup: bool
    var retryCount: nat
    var connectedBit: bool
    var failBit: bool
    /** The SDK calls made so far. */
    var sdkCalls: seq<SdkCall>

    function Current(): Status
      reads this
    {
      Status(retryCount, connectedBit, failBit)
    }

    predicate Valid()
      reads this
    {
      retryCount <= MaximumRetry
    }

    /** The static initialisers: no event group, no retries yet. */
    constructor ()
      ensures Valid() && !hasEventGroup && Current() == Status(0, false, false) && sdkCalls == []
    {
      hasEventGroup := false;
      retryCount, connectedBit, failBit := 0, false, false;
      sdkCalls := [];
    }

    /** wifi_init, with the SDK bring-up after the event group reduced to its
        outcome `bringUp` (the error of the first failing step, or Ok). */
    method Init(ssid: Ptr<string>, password: Ptr<string>, groupCreated: bool, bringUp: EspErr)
      returns (r: EspErr)
      modifies this`hasEventGroup, this`connectedBit, this`failBit
      ensures ssid.Null? || password.Null? ==>
                r == InvalidArg && unchanged(this)
      ensures ssid.Ref? && password.Ref? && !groupCreated ==>
                r == Fail && !hasEventGroup
      ensures ssid.Ref? && password.Ref? && groupCreated ==>
                r == bringUp && hasEventGroup && !connectedBit && !failBit
    {
      if ssid.Null? || password.Null? {
        return InvalidArg;
      }
      // A new event group starts with every bit clear; a failed creation leaves
      // the handle NULL.
      hasEventGroup := groupCreated;
      if !groupCreated {
        return Fail;
      }
      connectedBit, failBit := false, false;
      r := bringUp;
    }

    /** wifi_event_handler; it is registered only once the event group exists. */
    method HandleEvent(e: Event)
      requires hasEventGroup
      modifies this`retryCount, this`connectedBit, this`failBit, this`sdkCalls
      ensures Current() == Handle(old(Current()), e).0
      ensures sdkCalls == old(sdkCalls) + Handle(old(Current()), e).1
      ensures old(Valid()) ==> Valid()
    {
      match e
      case StaStart =>
        sdkCalls := sdkCalls + [Connect];
      case StaDisconnected =>
        if retryCount < MaximumRetry {
          sdkCalls := sdkCalls + [Connect];
          retryCount := retryCount + 1;
        } else {
          failBit := true;
        }
      case GotIp =>
        retryCount := 0;
        connectedBit := true;
      case _ =>
    }

    /** wifi_is_connected: false without an event group, else the connected bit. */
    method IsConnected() returns (b: bool)
      ensures b <==> hasEventGroup && Current().connected
    {
      if !hasEventGroup {
        return false;
      }
      b := connectedBit;
    }

    /** wifi_disconnect: asks the SDK to disconnect only when connected, and
        passes on its result; otherwise reports Ok without any SDK call. */
    method Disconnect(sdkResult: EspErr) returns (r: EspErr)
      modifies this`sdkCalls
      ensures hasEventGroup && connectedBit ==> r == sdkResult && sdkCalls == old(sdkCalls) + [SdkCall.Disconnect]
      ensures !(hasEventGroup && connectedBit) ==> r == Ok && sdkCalls == old(sdkCalls)
    {
      var connected := IsConnected();
      if connected {
        sdkCalls := sdkCalls + [SdkCall.Disconnect];
        return sdkResult;
      }
      r := Ok;
    }
  }
}

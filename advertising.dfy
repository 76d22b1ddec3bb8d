/**
 * The advertising toggle of `BleServerImpl`: the `advertising` flag, the
 * `advertiserCallback` field and the calls made on the platform advertiser.
 *
 * `startAdvertising` in the source declares a local `advertiserCallback`
 * that shadows the field, so the field is never set and every later stop
 * names no callback. `SetAdvertisingAsWritten` models that code;
 * `SetAdvertising` models the evidently intended one, which stores the
 * callback it starts with, and is the one `BleServerImpl` uses.
 */
module Advertising {
  import opened Models

  /** Stands for an `AdvertiseCallback` object. */
  type CallbackId = nat
  /** Stands for a `BluetoothLeAdvertiser`. */
  type AdvertiserId = nat

  datatype AdvertiserCall =
    | StartAdvertising(advertiser: AdvertiserId, callback: CallbackId, serviceUuids: seq<Uuid>)
    | StopAdvertising(advertiser: AdvertiserId, stopCallback: Option<CallbackId>)

  /**
   * The `advertising` flag, the `advertiserCallback` field, and the next
   * fresh callback object.
   */
  datatype AdvertisingState = AdvertisingState(advertising: bool, callback: Option<CallbackId>, nextCallback: nat)

  /** A new state and the advertiser calls made on the way to it. */
  datatype Step = Step(state: AdvertisingState, calls: seq<AdvertiserCall>)

  /** `startAdvertising` as written: a fresh callback is passed but not kept. */
  function StartAsWritten(st: AdvertisingState, advertiser: Option<AdvertiserId>, uuids: seq<Uuid>): (r: Step)
    ensures r.state.callback == st.callback
  {
    var c := st.nextCallback;
    Step(st.(nextCallback := c + 1), if advertiser.Some? then [StartAdvertising(advertiser.value, c, uuids)] else [])
  }

  /** `startAdvertising` as intended: the fresh callback is stored in the field. */
  function Start(st: AdvertisingState, advertiser: Option<AdvertiserId>, uuids: seq<Uuid>): (r: Step)
    ensures r.state.callback == Some(st.nextCallback)
    ensures r.calls == if advertiser.Some? then [StartAdvertising(advertiser.value, st.nextCallback, uuids)] else []
  {
    var c := st.nextCallback;
    Step(st.(callback := Some(c), nextCallback := c + 1), if advertiser.Some? then [StartAdvertising(advertiser.value, c, uuids)] else [])
  }

  /** `stopAdvertising`: stops with the stored callback, then forgets it. */
  function Stop(st: AdvertisingState, advertiser: Option<AdvertiserId>): (r: Step)
    ensures r.state.callback == None
    ensures r.calls == if advertiser.Some? then [StopAdvertising(advertiser.value, st.callback)] else []
  {
    var c := st.callback;
    Step(st.(callback := None), if advertiser.Some? then [StopAdvertising(advertiser.value, c)] else [])
  }

  /** The `advertising` setter as written. */
  function SetAdvertisingAsWritten(st: AdvertisingState, advertiser: Option<AdvertiserId>, value: bool, uuids: seq<Uuid>): (r: Step)
    ensures r.state.advertising == value
    ensures r.state.callback == (if value then st.callback else None)
  {
    var s :=
      if value && !st.advertising then StartAsWritten(st, advertiser, uuids)
      else if !value then Stop(st, advertiser)
      else Step(st, []);
    s.(state := s.state.(advertising := value))
  }

  /** The `advertising` setter, starting on a false-to-true change and stopping whenever set false. */
  function SetAdvertising(st: AdvertisingState, advertiser: Option<AdvertiserId>, value: bool, uuids: seq<Uuid>): (r: Step)
    ensures r.state.advertising == value
    ensures (exists call :: call in r.calls && call.StartAdvertising?) <==> (value && !st.advertising && advertiser.Some?)
    ensures (exists call :: call in r.calls && call.StopAdvertising?) <==> (!value && advertiser.Some?)
    ensures |r.calls| <= 1
  {
    var s :=
      if value && !st.advertising then Start(st, advertiser, uuids)
      else if !value then Stop(st, advertiser)
      else Step(st, []);
    assert advertiser.Some? && (!value || !st.advertising) ==> s.calls[0] in s.calls;
    s.(state := s.state.(advertising := value))
  }

  /** The advertising half of `dispose`: stop with the stored callback if there is one, then forget it. */
  function DisposeAdvertising(st: AdvertisingState, advertiser: Option<AdvertiserId>): (r: Step)
    ensures r.state.callback == None && r.state.advertising == st.advertising
    ensures |r.calls| == 1 <==> st.callback.Some? && advertiser.Some?
    ensures forall call :: call in r.calls ==> call.StopAdvertising? && call.stopCallback == st.callback && st.callback.Some?
  {
    var calls := if st.callback.Some? && advertiser.Some? then [StopAdvertising(advertiser.value, st.callback)] else [];
    Step(st.(callback := None), calls)
  }

  /** As written, the callback field never leaves `null`. */
  lemma AsWrittenCallbackStaysNull(st: AdvertisingState, advertiser: Option<AdvertiserId>, value: bool, uuids: seq<Uuid>)
    requires st.callback == None
    ensures SetAdvertisingAsWritten(st, advertiser, value, uuids).state.callback == None
    ensures DisposeAdvertising(st, advertiser).calls == []
  {
  }

  /**
   * As written, turning advertising on and off starts with callback 0 but
   * stops with no callback, and a `dispose` after turning it on stops nothing.
   */
  lemma AsWrittenStopLosesCallback(a: AdvertiserId, uuids: seq<Uuid>)
    ensures var st0 := AdvertisingState(false, None, 0);
      var on := SetAdvertisingAsWritten(st0, Some(a), true, uuids);
      var off := SetAdvertisingAsWritten(on.state, Some(a), false, uuids);
      && on.calls == [StartAdvertising(a, 0, uuids)]
      && off.calls == [StopAdvertising(a, None)]
      && DisposeAdvertising(on.state, Some(a)).calls == []
  {
  }

  /**
   * With the callback kept, turning advertising off, or disposing, stops
   * exactly the callback it was started with.
   */
  lemma StopMatchesStart(st: AdvertisingState, a: AdvertiserId, uuids: seq<Uuid>)
    requires !st.advertising
    ensures var on := SetAdvertising(st, Some(a), true, uuids);
      var off := SetAdvertising(on.state, Some(a), false, uuids);
      && on.calls == [StartAdvertising(a, st.nextCallback, uuids)]
      && off.calls == [StopAdvertising(a, Some(st.nextCallback))]
      && DisposeAdvertising(on.state, Some(a)).calls == [StopAdvertising(a, Some(st.nextCallback))]
  {
  }

  /** Setting `advertising` to true twice starts advertising at most once. */
  lemma SecondEnableIsQuiet(st: AdvertisingState, advertiser: Option<AdvertiserId>, uuids: seq<Uuid>)
    ensures var on := SetAdvertising(st, advertiser, true, uuids);
      SetAdvertising(on.state, advertiser, true, uuids) == Step(on.state, [])
  {
  }
}

/** The application model around the driver (class `Model`): a connection state that tells its
    observers every time it is set, a timer routine that (re)connects and reads the channel list,
    and the waveform read-out for the view. */
module LabModel {
  import opened Wrappers
  import opened Visa
  import opened Mso54

  /** `State`: the connection state shown to the user. */
  datatype State = Busy | Disconnected | Connected

  /** An observer as the model uses it: it is told each state the model is set to. */
  class Observer {
    /** The states this observer has been told, oldest first. */
    var received: seq<State>

    constructor ()
      ensures received == []
    {
      received := [];
    }

    /** `update(state)`. */
    method Update(s: State)
      modifies this`received
      ensures received == old(received) + [s]
    {
      received := received + [s];
    }
  }

  /** What `data(channel)` returns for a transfer that ended with `t`: the waveform, nothing when
      the transfer raised `VisaError` (which `data` catches), or the exception it raised. */
  function DataOf(t: Result<Waveform, Error>): Result<Option<Waveform>, Error> {
    match t
    case Ok(w) => Ok(Some(w))
    case Err(e) => if e == VisaError then Ok(None) else Err(e)
  }

  /** The `VisaError` handler of `data` never fires: a connected model returns a waveform
      exactly when the transfer succeeds, and otherwise passes the transfer's exception on. */
  lemma DataPassesTransferOn(sc: Script, channel: string)
    requires BusScript(sc)
    ensures var t := Transfer(sc, channel);
      && (DataOf(t).Ok? <==> t.Ok?)
      && (t.Ok? ==> DataOf(t) == Ok(Some(t.value)))
      && (t.Err? ==> DataOf(t) == Err(t.error))
  {
    TransferErrors(sc, channel);
  }

  class Model {
    const instrument: MSO54
    /** `_observers`. */
    var observers: set<Observer>
    /** `__state`, behind the `state` property. */
    var state: State
    var availableChannels: Option<seq<string>>

    /** The bus is consistent and the model is never busy. */
    ghost predicate Valid()
      reads this`state, instrument.manager`sessions, instrument.manager`closed, instrument.manager`lost
    {
      instrument.manager.Valid() && state != Busy
    }

    /** `Model()`: a driver that searches the bus, no observers, disconnected, no channel list.
        Setting the state notifies nobody, as there are no observers yet. */
    constructor (manager: ResourceManager)
      requires manager.Valid()
      ensures fresh(instrument)
      ensures instrument.manager == manager && instrument.address == None && instrument.inst == None
      ensures observers == {} && state == Disconnected && availableChannels == None
      ensures Valid()
    {
      instrument := new MSO54(manager);
      observers := {};
      state := Disconnected;
      availableChannels := None;
    }

    /** Every observer in `os` was told `s` once, and nothing else. */
    static twostate predicate Notified(os: set<Observer>, s: State)
      reads os
    {
      forall o :: o in os ==> o.received == old(o.received) + [s]
    }

    /** No observer in `os` was told anything. */
    static twostate predicate Silent(os: set<Observer>)
      reads os
    {
      forall o :: o in os ==> o.received == old(o.received)
    }

    /** `attach(observer)`. */
    method Attach(observer: Observer)
      modifies this`observers
      ensures observers == old(observers) + {observer}
    {
      observers := observers + {observer};
    }

    /** `detach(observer)`: discarding an observer that is not attached does nothing. */
    method Detach(observer: Observer)
      modifies this`observers
      ensures observers == old(observers) - {observer}
    {
      observers := observers - {observer};
    }

    /** `__notify`: each attached observer is told the current state, in some order. */
    method Notify()
      modifies observers
      ensures Notified(observers, state)
    {
      var pending := observers;
      while pending != {}
        invariant pending <= observers
        invariant forall o :: o in observers && o !in pending ==> o.received == old(o.received) + [state]
        invariant forall o :: o in pending ==> o.received == old(o.received)
        decreases pending
      {
        var o :| o in pending;
        o.Update(state);
        pending := pending - {o};
      }
    }

    /** The `state` setter: store, then notify, even when the state does not change. */
    method SetState(s: State)
      modifies this`state, observers
      ensures state == s && Notified(observers, s)
    {
      state := s;
      Notify();
    }

    /** `timer_routine`: connect unless connected, swallowing `NoConnectionError` and
        `WrongInstrumentError`; then set the state from `is_connected` and, when connected, read
        the channel list. Any other exception is passed on. */
    method TimerRoutine() returns (r: Outcome<Error>)
      requires Valid()
      modifies this`state, this`availableChannels, observers, instrument`inst, instrument`connectCalls
      modifies instrument.manager`sessions, instrument.manager`closed, instrument.manager`replies, instrument.manager`log
      ensures Valid()
      ensures instrument.connectCalls == old(instrument.connectCalls) + (if old(state) == Connected then 0 else 1)
      ensures r.Raised? ==> r.error != NoConnection && r.error != WrongInstrument
      ensures r.Done? ==> (state == Connected <==> instrument.Alive()) && Notified(observers, state)
      ensures r.Done? && state == Disconnected ==> availableChannels == old(availableChannels)
      ensures r.Done? && state == Connected ==>
        availableChannels.Some? && ChannelReply(old(instrument.manager.Pending(AvailableQuery))) == Ok(availableChannels.value)
      ensures r.Raised? ==>
        || (state == old(state) && availableChannels == old(availableChannels) && Silent(observers))
        || (state == Connected && availableChannels == old(availableChannels) && Notified(observers, Connected))
      ensures old(state) == Connected ==> instrument.inst == old(instrument.inst)
      ensures old(state == Connected && instrument.Alive()) ==>
        && state == Connected
        && r == (match ChannelReply(old(instrument.manager.Pending(AvailableQuery))) case Ok(_) => Done case Err(e) => Raised(e))
        && instrument.manager.log == old(instrument.manager.log)
          + [Asked(instrument.inst.value, IdnQuery), Asked(instrument.inst.value, AvailableQuery)]
      ensures old(state == Connected && instrument.Ready() && !instrument.Alive()) ==>
        && r == Done && state == Disconnected && Notified(observers, Disconnected)
        && availableChannels == old(availableChannels)
        && instrument.manager.log == old(instrument.manager.log) + [Asked(instrument.inst.value, IdnQuery)]
    {
      if state != Connected {
        var c := instrument.Connect();
        if c.Raised? && c.error != NoConnection && c.error != WrongInstrument {
          return c;
        }
      }
      r := Refresh();
    }

    /** The second half of `timer_routine`: the state from `is_connected`, then the channel list. */
    method Refresh() returns (r: Outcome<Error>)
      requires Valid()
      modifies this`state, this`availableChannels, observers, instrument.manager`replies, instrument.manager`log
      ensures Valid()
      ensures instrument.inst.Some? && !instrument.Ready() ==>
        && r == Raised(Transport(InvalidSession)) && state == old(state) && availableChannels == old(availableChannels)
        && Silent(observers) && instrument.manager.log == old(instrument.manager.log)
      ensures (instrument.inst.None? || instrument.Ready()) && !instrument.Alive() ==>
        && r == Done && state == Disconnected && Notified(observers, Disconnected)
        && availableChannels == old(availableChannels)
        && instrument.manager.log == old(instrument.manager.log)
          + (if instrument.inst.Some? then [Asked(instrument.inst.value, IdnQuery)] else [])
      ensures instrument.Alive() ==>
        && state == Connected && Notified(observers, Connected)
        && r == (match ChannelReply(old(instrument.manager.Pending(AvailableQuery))) case Ok(_) => Done case Err(e) => Raised(e))
        && (r.Done? ==> availableChannels == Some(ChannelReply(old(instrument.manager.Pending(AvailableQuery))).value))
        && (r.Raised? ==> availableChannels == old(availableChannels))
        && instrument.manager.log == old(instrument.manager.log)
          + [Asked(instrument.inst.value, IdnQuery), Asked(instrument.inst.value, AvailableQuery)]
      ensures instrument.manager.Pending(AvailableQuery) ==
        Rest(old(instrument.manager.Pending(AvailableQuery)), if instrument.Alive() then 1 else 0)
      ensures forall q :: q != AvailableQuery ==> instrument.manager.Pending(q) == old(instrument.manager.Pending(q))
    {
      var alive := instrument.IsConnected();
      if alive.Err? {
        return Raised(alive.error);
      }
      if alive.value {
        SetState(Connected);
        var channels := instrument.GetAvailableChannels();
        if channels.Err? {
          return Raised(channels.error);
        }
        availableChannels := Some(channels.value);
      } else {
        SetState(Disconnected);
      }
      r := Done;
    }

    /** `data(channel)`: the waveform when connected, otherwise nothing; the bus is not used
        unless connected, and when connected it ends as the transfer leaves it. */
    method Data(channel: string, toReal: string -> Option<real>) returns (r: Result<Option<Waveform>, Error>)
      modifies instrument.manager`replies, instrument.manager`log, instrument.manager`curves
      ensures state != Connected || !instrument.Ready() ==>
        && instrument.manager.log == old(instrument.manager.log)
        && (forall q :: instrument.manager.Pending(q) == old(instrument.manager.Pending(q)))
        && instrument.manager.curves == old(instrument.manager.curves)
      ensures state != Connected ==> r == Ok(None)
      ensures state == Connected && !instrument.Ready() ==> r == Err(instrument.NotReady())
      ensures state == Connected && instrument.Ready() ==>
        && r == DataOf(old(Transfer(instrument.ScriptNow(toReal), channel)))
        && instrument.Transferred(channel, toReal)
    {
      if state != Connected {
        return Ok(None);
      }
      var t := instrument.TransferWaveform(channel, toReal);
      r := DataOf(t);
    }
  }
}

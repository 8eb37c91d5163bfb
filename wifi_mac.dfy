/** One MAC instance's timing-parameter record: fields filled from the default
    formulas at construction, then each an independent cell with its own setter
    and getter. */
module Mac {
  import opened MacTiming
  import opened MacParameters

  class WifiMac {
    var ctsTimeout: Time
    var ackTimeout: Time
    var sifs: Time
    var eifsNoDifs: Time
    var slot: Time
    var pifs: Time
    var maxPropagationDelay: Time
    var maxMsduSize: MsduSize
    var ssid: Ssid

    /** The record's fields as one value. */
    ghost function State(): MacState
      reads this
    {
      MacState(ctsTimeout, ackTimeout, sifs, eifsNoDifs, slot, pifs,
               maxPropagationDelay, maxMsduSize, ssid)
    }

    /** Every field takes the initial value the attribute table gives it. */
    constructor ()
      ensures State() == Initial()
      ensures ctsTimeout == ackTimeout == DefaultCtsAckTimeout()
    {
      ctsTimeout := DefaultCtsAckTimeout();
      ackTimeout := DefaultCtsAckTimeout();
      sifs := DefaultSifs();
      eifsNoDifs := DefaultEifsNoDifs();
      slot := DefaultSlot();
      pifs := DefaultSifs() + DefaultSlot();
      maxPropagationDelay := DefaultMaxPropagationDelay();
      maxMsduSize := 2304;
      ssid := Ssid("default");
    }

    method SetPifs(t: Time)
      modifies this`pifs
      ensures State() == old(State()).(pifs := t)
    {
      pifs := t;
    }

    method SetCtsTimeout(t: Time)
      modifies this`ctsTimeout
      ensures State() == old(State()).(ctsTimeout := t)
    {
      ctsTimeout := t;
    }

    method SetAckTimeout(t: Time)
      modifies this`ackTimeout
      ensures State() == old(State()).(ackTimeout := t)
    {
      ackTimeout := t;
    }

    /** Only the stored delay changes: the timeouts computed from the default
        delay at construction stay as they are. */
    method SetMaxPropagationDelay(t: Time)
      modifies this`maxPropagationDelay
      ensures State() == old(State()).(maxPropagationDelay := t)
    {
      maxPropagationDelay := t;
    }

    method SetSifs(t: Time)
      modifies this`sifs
      ensures State() == old(State()).(sifs := t)
    {
      sifs := t;
    }

    method SetEifsNoDifs(t: Time)
      modifies this`eifsNoDifs
      ensures State() == old(State()).(eifsNoDifs := t)
    {
      eifsNoDifs := t;
    }

    method SetSlot(t: Time)
      modifies this`slot
      ensures State() == old(State()).(slot := t)
    {
      slot := t;
    }

    method SetSsid(id: Ssid)
      modifies this`ssid
      ensures State() == old(State()).(ssid := id)
    {
      ssid := id;
    }

    method GetPifs() returns (t: Time)
      ensures TimeValue(t) == Get(State(), Pifs)
    {
      t := pifs;
    }

    method GetCtsTimeout() returns (t: Time)
      ensures TimeValue(t) == Get(State(), CtsTimeout)
    {
      t := ctsTimeout;
    }

    method GetAckTimeout() returns (t: Time)
      ensures TimeValue(t) == Get(State(), AckTimeout)
    {
      t := ackTimeout;
    }

    method GetMaxPropagationDelay() returns (t: Time)
      ensures TimeValue(t) == Get(State(), MaxPropagationDelay)
    {
      t := maxPropagationDelay;
    }

    method GetSifs() returns (t: Time)
      ensures TimeValue(t) == Get(State(), Sifs)
    {
      t := sifs;
    }

    method GetEifsNoDifs() returns (t: Time)
      ensures TimeValue(t) == Get(State(), EifsNoDifs)
    {
      t := eifsNoDifs;
    }

    method GetSlot() returns (t: Time)
      ensures TimeValue(t) == Get(State(), Slot)
    {
      t := slot;
    }

    method GetSsid() returns (id: Ssid)
      ensures SsidValue(id) == Get(State(), SsidAttribute)
    {
      id := ssid;
    }

    /** The MSDU lifetime is a fixed 10 s, whatever has been configured. */
    method GetMsduLifetime() returns (t: Time)
      ensures t == Seconds(10)
    {
      t := Seconds(10);
    }

    /** The stored MSDU size, always within [1, 2304]. */
    method GetMaxMsduSize() returns (n: nat)
      ensures UintegerValue(n) == Get(State(), MaxMsduSize)
      ensures 1 <= n <= MaxMsduSizeLimit
    {
      n := maxMsduSize;
    }

    /** Writes an attribute by name through its checker. A refused value is
        reported and leaves every field as it was. */
    method SetAttribute(a: Attribute, v: Value) returns (ok: bool)
      modifies this
      ensures ok <==> Accepts(a, v)
      ensures State() == Apply(old(State()), Write(a, v))
    {
      ok := Accepts(a, v);
      if ok {
        match a
        case CtsTimeout => SetCtsTimeout(v.time);
        case AckTimeout => SetAckTimeout(v.time);
        case Sifs => SetSifs(v.time);
        case EifsNoDifs => SetEifsNoDifs(v.time);
        case Slot => SetSlot(v.time);
        case Pifs => SetPifs(v.time);
        case MaxPropagationDelay => SetMaxPropagationDelay(v.time);
        case MaxMsduSize => maxMsduSize := v.n;
        case SsidAttribute => SetSsid(v.ssid);
      }
    }

    /** Reads an attribute by name. */
    method GetAttribute(a: Attribute) returns (v: Value)
      ensures v == Get(State(), a)
    {
      match a
      case CtsTimeout => v := TimeValue(ctsTimeout);
      case AckTimeout => v := TimeValue(ackTimeout);
      case Sifs => v := TimeValue(sifs);
      case EifsNoDifs => v := TimeValue(eifsNoDifs);
      case Slot => v := TimeValue(slot);
      case Pifs => v := TimeValue(pifs);
      case MaxPropagationDelay => v := TimeValue(maxPropagationDelay);
      case MaxMsduSize => v := UintegerValue(maxMsduSize);
      case SsidAttribute => v := SsidValue(ssid);
    }
  }

  /** A client of the record: overriding SIFS and the propagation delay leaves
      the values derived from their defaults alone, and an out-of-range MSDU
      size is refused without touching the stored one. */
  method ConfigurationClient(newSifs: Time, newDelay: Time)
  {
    var mac := new WifiMac();
    mac.SetSifs(newSifs);
    mac.SetMaxPropagationDelay(newDelay);
    var sifs := mac.GetSifs();
    var pifs := mac.GetPifs();
    var cts := mac.GetCtsTimeout();
    var ack := mac.GetAckTimeout();
    assert sifs == newSifs;
    assert pifs == MicroSeconds(25);
    assert cts == ack == DefaultCtsAckTimeout();

    var ok := mac.SetAttribute(MaxMsduSize, UintegerValue(3000));
    var size := mac.GetMaxMsduSize();
    assert !ok && size == 2304;
    ok := mac.SetAttribute(MaxMsduSize, UintegerValue(0));
    size := mac.GetMaxMsduSize();
    assert !ok && size == 2304;
    ok := mac.SetAttribute(MaxMsduSize, UintegerValue(1500));
    size := mac.GetMaxMsduSize();
    assert ok && size == 1500;

    mac.SetCtsTimeout(MicroSeconds(100));
    cts := mac.GetCtsTimeout();
    ack := mac.GetAckTimeout();
    assert cts == MicroSeconds(100) && ack == DefaultCtsAckTimeout();

    var lifetime := mac.GetMsduLifetime();
    assert lifetime == Seconds(10);
  }
}

/** The MAC timing-parameter record as a value: its fields, the attribute table
    that gives each field its construction default and its checker, reading and
    writing a field by attribute name, and what any history of writes does. */
module MacParameters {
  import opened MacTiming

  /** Service set identifier; the timing record only stores and returns it. */
  datatype Ssid = Ssid(name: string)

  /** Largest MAC service data unit, in bytes. */
  const MaxMsduSizeLimit: nat := 2304

  /** The sizes the MaxMsduSize attribute may hold. */
  type MsduSize = n: nat | 1 <= n <= MaxMsduSizeLimit witness MaxMsduSizeLimit

  /** One snapshot of every stored field of a MAC instance. */
  datatype MacState = MacState(
    ctsTimeout: Time,
    ackTimeout: Time,
    sifs: Time,
    eifsNoDifs: Time,
    slot: Time,
    pifs: Time,
    maxPropagationDelay: Time,
    maxMsduSize: MsduSize,
    ssid: Ssid)

  /** The configurable attributes, one per stored field. */
  datatype Attribute =
    | CtsTimeout | AckTimeout | Sifs | EifsNoDifs | Slot | Pifs
    | MaxPropagationDelay | MaxMsduSize | SsidAttribute

  /** A value handed to or read from an attribute. */
  datatype Value = TimeValue(time: Time) | UintegerValue(n: nat) | SsidValue(ssid: Ssid)

  /** Outcome of writing one attribute. */
  datatype SetResult = Accepted(state: MacState) | ValidationFailure

  /** The initial value the attribute table records for each attribute; each
      passes that attribute's own checker. */
  function InitialValue(a: Attribute): (v: Value)
    ensures Accepts(a, v)
  {
    match a
    case CtsTimeout => TimeValue(DefaultCtsAckTimeout())
    case AckTimeout => TimeValue(DefaultCtsAckTimeout())
    case Sifs => TimeValue(DefaultSifs())
    case EifsNoDifs => TimeValue(DefaultEifsNoDifs())
    case Slot => TimeValue(DefaultSlot())
    case Pifs => TimeValue(DefaultSifs() + DefaultSlot())
    case MaxPropagationDelay => TimeValue(DefaultMaxPropagationDelay())
    case MaxMsduSize => UintegerValue(2304)
    case SsidAttribute => SsidValue(Ssid("default"))
  }

  /** The kinds of attribute value. */
  datatype Kind = TimeKind | UintegerKind | SsidKind

  function KindOf(v: Value): (k: Kind)
  {
    match v
    case TimeValue(_) => TimeKind
    case UintegerValue(_) => UintegerKind
    case SsidValue(_) => SsidKind
  }

  /** The value kind each attribute's accessor is declared with. */
  function DeclaredKind(a: Attribute): (k: Kind)
  {
    match a
    case MaxMsduSize => UintegerKind
    case SsidAttribute => SsidKind
    case _ => TimeKind
  }

  /** The checker of each attribute: time attributes take any time, MaxMsduSize
      takes an unsigned integer in [1, 2304], Ssid takes any identifier. A checker
      only takes values of the kind its attribute is declared with; apart from
      MaxMsduSize it takes every such value. */
  function Accepts(a: Attribute, v: Value): (ok: bool)
    ensures ok ==> KindOf(v) == DeclaredKind(a)
    ensures a != MaxMsduSize ==> (ok <==> KindOf(v) == DeclaredKind(a))
  {
    match a
    case MaxMsduSize => v.UintegerValue? && 1 <= v.n <= MaxMsduSizeLimit
    case SsidAttribute => v.SsidValue?
    case _ => v.TimeValue?
  }

  /** Reads one attribute; a stored value always passes its own checker. */
  function Get(s: MacState, a: Attribute): (v: Value)
    ensures Accepts(a, v)
  {
    match a
    case CtsTimeout => TimeValue(s.ctsTimeout)
    case AckTimeout => TimeValue(s.ackTimeout)
    case Sifs => TimeValue(s.sifs)
    case EifsNoDifs => TimeValue(s.eifsNoDifs)
    case Slot => TimeValue(s.slot)
    case Pifs => TimeValue(s.pifs)
    case MaxPropagationDelay => TimeValue(s.maxPropagationDelay)
    case MaxMsduSize => UintegerValue(s.maxMsduSize)
    case SsidAttribute => SsidValue(s.ssid)
  }

  /** Writes one attribute. A value the checker refuses is a validation failure;
      an accepted one is read back exactly and no other attribute changes. */
  function Set(s: MacState, a: Attribute, v: Value): (r: SetResult)
    ensures r.Accepted? <==> Accepts(a, v)
    ensures r.Accepted? ==> Get(r.state, a) == v
    ensures r.Accepted? ==> forall b :: b != a ==> Get(r.state, b) == Get(s, b)
  {
    if !Accepts(a, v) then ValidationFailure
    else
      match a
      case CtsTimeout => Accepted(s.(ctsTimeout := v.time))
      case AckTimeout => Accepted(s.(ackTimeout := v.time))
      case Sifs => Accepted(s.(sifs := v.time))
      case EifsNoDifs => Accepted(s.(eifsNoDifs := v.time))
      case Slot => Accepted(s.(slot := v.time))
      case Pifs => Accepted(s.(pifs := v.time))
      case MaxPropagationDelay => Accepted(s.(maxPropagationDelay := v.time))
      case MaxMsduSize => Accepted(s.(maxMsduSize := v.n))
      case SsidAttribute => Accepted(s.(ssid := v.ssid))
  }

  /** The record as construction leaves it: every field from its default formula,
      so that every attribute holds the initial value of the attribute table. */
  function Initial(): (s: MacState)
    ensures forall a :: Get(s, a) == InitialValue(a)
  {
    MacState(
      DefaultCtsAckTimeout(),
      DefaultCtsAckTimeout(),
      DefaultSifs(),
      DefaultEifsNoDifs(),
      DefaultSlot(),
      DefaultSifs() + DefaultSlot(),
      DefaultMaxPropagationDelay(),
      2304,
      Ssid("default"))
  }

  /** Two records that agree on every attribute are the same record. */
  lemma AttributesDetermineState(s: MacState, t: MacState)
    requires forall a :: Get(s, a) == Get(t, a)
    ensures s == t
  {
    assert Get(s, CtsTimeout) == Get(t, CtsTimeout);
    assert Get(s, AckTimeout) == Get(t, AckTimeout);
    assert Get(s, Sifs) == Get(t, Sifs);
    assert Get(s, EifsNoDifs) == Get(t, EifsNoDifs);
    assert Get(s, Slot) == Get(t, Slot);
    assert Get(s, Pifs) == Get(t, Pifs);
    assert Get(s, MaxPropagationDelay) == Get(t, MaxPropagationDelay);
    assert Get(s, MaxMsduSize) == Get(t, MaxMsduSize);
    assert Get(s, SsidAttribute) == Get(t, SsidAttribute);
  }

  /** CtsTimeout and AckTimeout start from the same default but are separate
      fields: overriding one leaves the other at the default. */
  lemma TimeoutsShareDefaultNotStorage(t: Time)
    ensures Initial().ctsTimeout == Initial().ackTimeout == DefaultCtsAckTimeout()
    ensures Set(Initial(), CtsTimeout, TimeValue(t)).state.ackTimeout == DefaultCtsAckTimeout()
    ensures Set(Initial(), AckTimeout, TimeValue(t)).state.ctsTimeout == DefaultCtsAckTimeout()
  {
  }

  /** The constructed PIFS is SIFS plus one slot, 25 microseconds, and the
      constructed MaxMsduSize is the largest size allowed. */
  lemma InitialPifsAndMsduSize()
    ensures Initial().pifs == DefaultSifs() + DefaultSlot() == MicroSeconds(25)
    ensures Initial().maxMsduSize == MaxMsduSizeLimit == 2304
  {
  }

  /** MaxMsduSize accepts exactly the sizes 1 to 2304; 0 and 3000 fail validation. */
  lemma MaxMsduSizeRange(s: MacState, n: nat)
    ensures Set(s, MaxMsduSize, UintegerValue(n)).Accepted? <==> 1 <= n <= 2304
    ensures Set(s, MaxMsduSize, UintegerValue(0)) == ValidationFailure
    ensures Set(s, MaxMsduSize, UintegerValue(3000)) == ValidationFailure
  {
  }

  /** One attribute write made by a configuration step. */
  datatype Write = Write(attribute: Attribute, value: Value)

  /** The record after one write; a write that fails validation changes nothing. */
  function Apply(s: MacState, w: Write): (r: MacState)
    ensures Accepts(w.attribute, w.value) ==> Get(r, w.attribute) == w.value
    ensures !Accepts(w.attribute, w.value) ==> r == s
    ensures forall b :: b != w.attribute ==> Get(r, b) == Get(s, b)
  {
    match Set(s, w.attribute, w.value)
    case Accepted(t) => t
    case ValidationFailure => s
  }

  /** The record after a history of writes, oldest first. */
  function ApplyAll(s: MacState, ws: seq<Write>): (r: MacState)
    decreases |ws|
  {
    if ws == [] then s else ApplyAll(Apply(s, ws[0]), ws[1..])
  }

  /** No write of the history names attribute a. */
  predicate NeverWritten(ws: seq<Write>, a: Attribute)
  {
    forall i :: 0 <= i < |ws| ==> ws[i].attribute != a
  }

  /** Applying two histories one after the other is applying their concatenation. */
  lemma {:induction false} ApplyAllAppend(s: MacState, xs: seq<Write>, ys: seq<Write>)
    ensures ApplyAll(s, xs + ys) == ApplyAll(ApplyAll(s, xs), ys)
    decreases |xs|
  {
    if xs == [] {
      assert xs + ys == ys;
    } else {
      assert (xs + ys)[0] == xs[0];
      assert (xs + ys)[1..] == xs[1..] + ys;
      ApplyAllAppend(Apply(s, xs[0]), xs[1..], ys);
    }
  }

  /** An attribute no write names keeps its value, whatever else is written. */
  lemma {:induction false} UnwrittenAttributeKeeps(s: MacState, ws: seq<Write>, a: Attribute)
    requires NeverWritten(ws, a)
    ensures Get(ApplyAll(s, ws), a) == Get(s, a)
    decreases |ws|
  {
    if ws != [] {
      assert NeverWritten(ws[1..], a) by {
        forall i | 0 <= i < |ws[1..]| ensures ws[1..][i].attribute != a {
          assert ws[1..][i] == ws[i + 1];
        }
      }
      UnwrittenAttributeKeeps(Apply(s, ws[0]), ws[1..], a);
    }
  }

  /** After any history, an accepted write is read back exactly. */
  lemma LastWriteWins(s: MacState, ws: seq<Write>, a: Attribute, v: Value)
    requires Accepts(a, v)
    ensures Get(ApplyAll(s, ws + [Write(a, v)]), a) == v
  {
    ApplyAllAppend(s, ws, [Write(a, v)]);
    assert ApplyAll(Apply(ApplyAll(s, ws), Write(a, v)), []) == Apply(ApplyAll(s, ws), Write(a, v));
  }

  /** After any history, a write that fails validation leaves the whole record as it was. */
  lemma RejectedWriteChangesNothing(s: MacState, ws: seq<Write>, w: Write)
    requires !Accepts(w.attribute, w.value)
    ensures ApplyAll(s, ws + [w]) == ApplyAll(s, ws)
  {
    ApplyAllAppend(s, ws, [w]);
    assert ApplyAll(Apply(ApplyAll(s, ws), w), []) == Apply(ApplyAll(s, ws), w);
  }

  /** Defaults are a construction-time snapshot: an attribute that no write names
      still holds its table default, even when the fields its default formula
      was computed from have been overridden since. */
  lemma DefaultsAreSnapshot(ws: seq<Write>, a: Attribute)
    requires NeverWritten(ws, a)
    ensures Get(ApplyAll(Initial(), ws), a) == InitialValue(a)
  {
    UnwrittenAttributeKeeps(Initial(), ws, a);
  }

  /** In particular, overriding SIFS or the maximum propagation delay does not
      recompute PIFS, EIFS-without-DIFS or the two timeouts. */
  lemma OverridesDoNotPropagate(ws: seq<Write>)
    requires forall i :: 0 <= i < |ws| ==> ws[i].attribute in {Sifs, Slot, MaxPropagationDelay}
    ensures ApplyAll(Initial(), ws).pifs == DefaultSifs() + DefaultSlot()
    ensures ApplyAll(Initial(), ws).eifsNoDifs == DefaultEifsNoDifs()
    ensures ApplyAll(Initial(), ws).ctsTimeout == DefaultCtsAckTimeout()
    ensures ApplyAll(Initial(), ws).ackTimeout == DefaultCtsAckTimeout()
  {
    UnwrittenAttributeKeeps(Initial(), ws, Pifs);
    UnwrittenAttributeKeeps(Initial(), ws, EifsNoDifs);
    UnwrittenAttributeKeeps(Initial(), ws, CtsTimeout);
    UnwrittenAttributeKeeps(Initial(), ws, AckTimeout);
  }
}

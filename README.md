# Wireless MAC timing-parameter record

This project models the timing-parameter record of the ns-3 wireless MAC (`WifiMac`).
It covers two parts.

- **Default formulas.** Slot, SIFS and the 6 Mb/s CTS/ACK delay are 802.11a OFDM constants.
  EIFS-without-DIFS is SIFS plus the CTS/ACK delay. PIFS is SIFS plus one slot.
  The CTS/ACK timeout is SIFS, plus the CTS/ACK delay, plus two maximum propagation delays, plus one slot.
  The maximum propagation delay is the one-way delay over a 1 km link.
- **The per-instance record.** Construction fills every field once from those defaults.
  After that, each field is its own cell with its own setter and getter.
  The MSDU lifetime is a fixed 10 s with no field behind it.
  MaxMsduSize is written through a checker that accepts only 1 to 2304.

Time is an integer count of nanoseconds.

The code is in three modules:

- `MacTiming` (`mac_timing.dfy`) holds the time units and the `GetDefault*` formulas.
- `MacParameters` (`mac_parameters.dfy`) holds the record as a value (`MacState`).
  It also holds the attribute table of initial values and checkers, by-name `Get`/`Set`, and the state after any history of writes (`ApplyAll`).
- `Mac` (`wifi_mac.dfy`) holds the class `WifiMac`. Its fields are updated in place.
  Each setter's frame names only its own field, and its `ensures` gives the whole new `State()`.

Defaults are a snapshot taken at construction, not a live dependency graph.
`DefaultsAreSnapshot` and `OverridesDoNotPropagate` state this.
For example, overriding SIFS or the propagation delay does not recompute PIFS, EIFS-without-DIFS or the timeouts.

`Mac.ConfigurationClient` is a usage example with no contract of its own. It uses only the class's contracts to show three things: overriding SIFS and the propagation delay leaves PIFS and the timeouts at their defaults; MSDU sizes 0 and 3000 are refused while 1500 is accepted; and overriding CtsTimeout leaves AckTimeout alone.

## Model

| member | source | states |
|---|---|---|
| `MacTiming.DefaultMaxPropagationDelay` | src/devices/wifi/wifi-mac.cc:27-32 | the default delay is non-negative and is the 1000 m / (3·10⁸ m/s) propagation time rounded down to a whole nanosecond |
| `MacTiming.DefaultCtsAckTimeout` | src/devices/wifi/wifi-mac.cc:56-68 | the value accumulated term by term equals the closed form SIFS + CTS/ACK delay + 2·delay + slot; it also equals EIFS-without-DIFS + 2·delay + slot, and 69 µs + 2·delay; it exceeds the earliest arrival time of a response by one slot |
| `MacTiming.DefaultSlot` | src/devices/wifi/wifi-mac.cc:33-38 | the default slot is exactly 9 µs (9000 ns) |
| `MacTiming.DefaultSifs` | src/devices/wifi/wifi-mac.cc:39-44 | the default SIFS is exactly 16 µs (16000 ns) |
| `MacTiming.DefaultCtsAckDelay` | src/devices/wifi/wifi-mac.cc:50-55 | the default CTS/ACK delay at 6 Mb/s is exactly 44 µs (44000 ns) |
| `MacTiming.DefaultEifsNoDifs` | src/devices/wifi/wifi-mac.cc:45-49 | the default EIFS-without-DIFS is 60 µs, and it exceeds the default SIFS by exactly the default CTS/ACK delay |
| `MacTiming.DefaultSpacingOrder` | src/devices/wifi/wifi-mac.cc:33-68 | the slot is positive, and SIFS < SIFS + slot (PIFS) < EIFS-without-DIFS < CTS/ACK timeout |
| `MacParameters.InitialValue` | src/devices/wifi/wifi-mac.cc:77-112 | every initial value in the attribute table passes its own attribute's checker; in particular the MaxMsduSize default 2304 lies in [1, 2304] |
| `MacParameters.Accepts` | src/devices/wifi/wifi-mac.cc:79-115 | a checker accepts only values of the kind its accessor is declared with; the time and SSID checkers accept every such value, and the MaxMsduSize checker accepts only 1 to 2304 (see `MaxMsduSizeRange`) |
| `MacParameters.Initial` | src/devices/wifi/wifi-mac.cc:76-115 | the constructed record holds, for every attribute, exactly the initial value of the attribute table |
| `MacParameters.Get` | src/devices/wifi/wifi-mac.cc:76-115 | whatever an attribute holds passes that attribute's own checker; in particular the stored MSDU size is always in [1, 2304] |
| `MacParameters.Set` | src/devices/wifi/wifi-mac.cc:76-115 | a write succeeds exactly when the attribute's checker accepts the value; a successful write is read back exactly and leaves every other attribute unchanged |
| `MacParameters.AttributesDetermineState` | src/devices/wifi/wifi-mac.cc:76-115 | the attributes cover the whole record: two records that agree on every attribute are equal |
| `MacParameters.TimeoutsShareDefaultNotStorage` | src/devices/wifi/wifi-mac.cc:76-83 | CtsTimeout and AckTimeout both start at the default CTS/ACK timeout; overriding either one leaves the other at that default |
| `MacParameters.InitialPifsAndMsduSize` | src/devices/wifi/wifi-mac.cc:99-110 | the constructed PIFS is SIFS + slot = 25 µs; the constructed MaxMsduSize is 2304 |
| `MacParameters.MaxMsduSizeRange` | src/devices/wifi/wifi-mac.cc:107-110 | a MaxMsduSize write is accepted if and only if 1 ≤ n ≤ 2304; 0 and 3000 fail validation |
| `MacParameters.Apply` | src/devices/wifi/wifi-mac.cc:76-115 | after one write, an accepted value is read back; a refused write changes nothing; other attributes never change |
| `MacParameters.ApplyAllAppend` | src/devices/wifi/wifi-mac.cc:120-139 | applying two histories of writes in turn is the same as applying their concatenation |
| `MacParameters.UnwrittenAttributeKeeps` | src/devices/wifi/wifi-mac.cc:120-139 | an attribute that no write in a history names keeps its value, whatever else is written |
| `MacParameters.LastWriteWins` | src/devices/wifi/wifi-mac.cc:120-154 | after any history, a final accepted write to an attribute is read back exactly |
| `MacParameters.RejectedWriteChangesNothing` | src/devices/wifi/wifi-mac.cc:107-110 | after any history, a write its checker refuses leaves the whole record unchanged |
| `MacParameters.DefaultsAreSnapshot` | src/devices/wifi/wifi-mac.cc:76-115 | starting from construction, an attribute that no write names still holds its table default, even if the values its formula was built from have been overridden |
| `MacParameters.OverridesDoNotPropagate` | src/devices/wifi/wifi-mac.cc:76-106 | after any writes to only SIFS, slot and max propagation delay, PIFS, EIFS-without-DIFS, CtsTimeout and AckTimeout still hold their construction defaults |
| `Mac.WifiMac.constructor` | src/devices/wifi/wifi-mac.cc:76-115 | the new record equals the construction defaults; CtsTimeout and AckTimeout both equal the default CTS/ACK timeout |
| `Mac.WifiMac.SetPifs` | src/devices/wifi/wifi-mac.cc:120-124 | PIFS becomes the given value; may modify only that field; every other field is unchanged |
| `Mac.WifiMac.SetCtsTimeout` | src/devices/wifi/wifi-mac.cc:125-129 | CtsTimeout becomes the given value; may modify only that field; every other field is unchanged |
| `Mac.WifiMac.SetAckTimeout` | src/devices/wifi/wifi-mac.cc:130-134 | AckTimeout becomes the given value; may modify only that field; every other field is unchanged |
| `Mac.WifiMac.SetMaxPropagationDelay` | src/devices/wifi/wifi-mac.cc:135-139 | the delay becomes the given value; the timeouts are not recomputed; every other field is unchanged |
| `Mac.WifiMac.SetSifs` | src/devices/wifi/wifi-mac.cc:84-88 | SIFS becomes the given value; PIFS and EIFS-without-DIFS are not recomputed; every other field is unchanged |
| `Mac.WifiMac.SetEifsNoDifs` | src/devices/wifi/wifi-mac.cc:89-93 | EIFS-without-DIFS becomes the given value; every other field is unchanged |
| `Mac.WifiMac.SetSlot` | src/devices/wifi/wifi-mac.cc:94-98 | the slot becomes the given value; every other field is unchanged |
| `Mac.WifiMac.SetSsid` | src/devices/wifi/wifi-mac.cc:111-115 | the SSID becomes the given value; every other field is unchanged |
| `Mac.WifiMac.GetPifs` | src/devices/wifi/wifi-mac.cc:140-144 | returns the stored PIFS, which is the Pifs attribute of the record |
| `Mac.WifiMac.GetCtsTimeout` | src/devices/wifi/wifi-mac.cc:145-149 | returns the stored CtsTimeout |
| `Mac.WifiMac.GetAckTimeout` | src/devices/wifi/wifi-mac.cc:150-154 | returns the stored AckTimeout |
| `Mac.WifiMac.GetMsduLifetime` | src/devices/wifi/wifi-mac.cc:156-160 | returns 10 s in every state, whatever has been set |
| `Mac.WifiMac.GetMaxPropagationDelay` | src/devices/wifi/wifi-mac.cc:161-165 | returns the stored maximum propagation delay |
| `Mac.WifiMac.GetMaxMsduSize` | src/devices/wifi/wifi-mac.cc:167-171 | returns the stored MSDU size, which is always in [1, 2304] |
| `Mac.WifiMac.GetSifs` | src/devices/wifi/wifi-mac.cc:84-88 | returns the stored SIFS |
| `Mac.WifiMac.GetEifsNoDifs` | src/devices/wifi/wifi-mac.cc:89-93 | returns the stored EIFS-without-DIFS |
| `Mac.WifiMac.GetSlot` | src/devices/wifi/wifi-mac.cc:94-98 | returns the stored slot |
| `Mac.WifiMac.GetSsid` | src/devices/wifi/wifi-mac.cc:111-115 | returns the stored SSID |
| `Mac.WifiMac.SetAttribute` | src/devices/wifi/wifi-mac.cc:76-115 | a by-name write succeeds exactly when the checker accepts the value; the new state is `Apply` of the old state to that write, so a refused write leaves every field unchanged and the history lemmas apply to any sequence of calls |
| `Mac.WifiMac.GetAttribute` | src/devices/wifi/wifi-mac.cc:76-115 | a by-name read returns the attribute's value in the record |

## Left out

- The position tracker (`src/mobility/static-speed-helper.h`) is outside this model's scope: its pause, extrapolation and clipping behaviour is not modelled.
- DefaultMaxPropagationDelay: ns-3's `GetDefaultMaxPropagationDelay` divides two doubles and converts the result to a time. The model takes the exact quotient rounded down to whole nanoseconds, and its contract states that rounding bound. Lemmas use the value only symbolically, so no decimal value of the delay or of the timeout is asserted. The rounding of that floating-point conversion is not modelled.
- Time: ns-3's `Time` is not an unbounded integer. It has a fixed-width or high-precision representation, and the model ignores its overflow and sub-nanosecond resolution.
- The attribute registration machinery is represented only by what it records: the initial value and checker of each attribute (`InitialValue`, `Accepts`) and an accessor to read and write the field (`Get`, `Set`, `SetAttribute`, `GetAttribute`). This covers object registration, type identifiers, attribute name strings and description texts. Unknown attribute names cannot occur, because attributes form a closed datatype.
- The maximum-size check is modelled as the attribute checker. wifi-mac.cc defines no MaxMsduSize setter; the attribute at wifi-mac.cc:107-110 is the write path in wifi-mac.cc, and its checker accepts [1, 2304]. A refused write is reported as a validation failure. A value of the wrong kind (for example, a time given to MaxMsduSize) also counts as a validation failure.
- The unsigned attribute value is an unbounded natural number, not a 64-bit integer. The stored size is a subset type of [1, 2304]. The checker's uint16_t range and the getter's uint32_t result are not modelled.
- SetSifs/GetSifs, SetSlot/GetSlot, SetEifsNoDifs/GetEifsNoDifs and SetSsid/GetSsid are only referenced by the attribute table. Their bodies are defined by `WifiMac`'s subclasses, not in wifi-mac.cc; they are modelled as plain fields with a setter and a getter. `Ssid` is an opaque value holding a name.
- Frame transmission, channel access (DCF/EDCA backoff) and queueing belong to the rest of the MAC and are not modelled.

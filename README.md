# Smartstrap attribute protocol of the TimeDock watch app

This project models the part of the TimeDock Pebble app (`Pebble/src/sleepeasy.c`)
that talks to the dock over the smartstrap link. The dock exposes five
fixed-length attributes on service `0x1001`:

- sound (id 1, 1 byte);
- uptime (id 2, 4 bytes);
- say-time (id 3, 2 bytes);
- renotify (id 4, 1 byte);
- ultrasound (id 5, 1 byte).

The watch writes three of them and reads one. It reacts to notifications on two.
It also shows whether the dock is connected.

Modules:

- `Attributes` (`attributes.dfy`) is the attribute table and the link's result codes.
- `Codec` (`codec.dfy`) holds the payload encoders, the conversion to `uint8_t`,
  and the little-endian `uint32_t` decoder for the uptime payload. It also holds
  the readers on the accessory side that invert them.
- `Router` (`router.dfy`) holds the stateless handler decisions: which read
  completions are accepted, what a notification triggers, and what an
  availability report records.
- `Session` (`session.dfy`) holds the class `Session`. It owns the attribute
  handles, the docked/undocked status, a log of every `end_write` call (attribute,
  bytes, length, request-read flag, the link's answer) and a log of every read request.
  Its methods follow the C handlers step by step. The writers fill an array
  buffer in place and then hand it to `EndWrite`.
- `Wrappers` (`wrappers.dfy`) is an `Option` type.

The results of the SDK calls `smartstrap_attribute_begin_write` and
`smartstrap_attribute_end_write` are parameters, as are the hour and minute the
clock gives when say-time samples it. The SDK's own rules are not modelled.
The invariant `Session.Valid` states four things:

- the handles are the declared attributes;
- every logged write goes to a writable attribute;
- every logged write stays within that attribute's declared length and never requests a follow-up read;
- every read request is for uptime.

Attribute handles are pointers in C and values here. The two agree because the
five declared attributes are pairwise distinct (`Attributes.TableInjective`).

The app keeps no record of outstanding reads or writes per attribute and
rejects no overlapping exchange itself; any such check belongs to the SDK. A read
completion for another attribute is dropped silently (sleepeasy.c:48-50). A failed
or wrong-length completion is logged and dropped (sleepeasy.c:51-57). Nothing is
retried.

## Model

| member | source | states |
|---|---|---|
| `Attributes.Table` | Pebble/src/sleepeasy.c:3-17 | every declared attribute is on service 0x1001, with an id in 1..5 and a length in 1..4 |
| `Attributes.TableValues` | Pebble/src/sleepeasy.c:240-248 | the attributes created are sound (1, 1 byte), uptime (2, 4), say-time (3, 2), renotify (4, 1) and ultrasound (5, 1) |
| `Attributes.KindOfId` | Pebble/src/sleepeasy.c:3-17 | a service/id pair that resolves to a kind is exactly that kind's declared service and id |
| `Attributes.KindOfIdInverts` | Pebble/src/sleepeasy.c:3-17 | each declared attribute is found again from its service and id |
| `Attributes.TableInjective` | Pebble/src/sleepeasy.c:3-17 | two kinds share an id, or a whole attribute, exactly when they are the same kind |
| `Codec.Truncate` | Pebble/src/sleepeasy.c:80-81 | the `(uint8_t)` conversion keeps bytes unchanged and otherwise differs from its input by a multiple of 256 |
| `Codec.SoundPayload` | Pebble/src/sleepeasy.c:115-117 | the sound payload fills the declared length of 1 |
| `Codec.SoundIsFire` | Pebble/src/sleepeasy.c:115 | the sound payload is exactly `[1]`, which the accessory reads as the flag true |
| `Codec.SayTimePayload` | Pebble/src/sleepeasy.c:80-81 | the say-time payload fills the declared length of 2 |
| `Codec.SayTimeRoundTrip` | Pebble/src/sleepeasy.c:80-81 | the accessory reads back hour and minute modulo 256, and exactly the hour and minute for any time of day |
| `Codec.RenotifyPayload` | Pebble/src/sleepeasy.c:135 | the renotify payload fills the declared length of 1 |
| `Codec.RenotifyRoundTrip` | Pebble/src/sleepeasy.c:135 | true is sent as `[1]` and false as `[0]`, and the accessory reads the same boolean back |
| `Codec.DecodeLE` | Pebble/src/sleepeasy.c:61 | a little-endian byte string of length k decodes to a number below 256^k |
| `Codec.EncodeLE` | Pebble/src/sleepeasy.c:61 | the accessory's k-byte little-endian encoding has length k |
| `Codec.DecodeEncode` | Pebble/src/sleepeasy.c:61 | decoding the k-byte encoding of any n below 256^k gives n |
| `Codec.EncodeDecode` | Pebble/src/sleepeasy.c:61 | re-encoding the decoded value of any byte string gives the same bytes |
| `Codec.DecodeU32` | Pebble/src/sleepeasy.c:61 | four payload bytes read as a host-order uint32 give a value below 2^32 whose little-endian bytes are the payload |
| `Codec.DecodeU32Bijective` | Pebble/src/sleepeasy.c:61 | every uint32 is decoded from its own little-endian bytes |
| `Codec.DecodeU32Example` | Pebble/src/sleepeasy.c:61 | `[0x64,0,0,0]` decodes to 100, `[0,1,0,0]` to 256 and four `0xff` bytes to 2^32-1 |
| `Router.ReadCompletion` | Pebble/src/sleepeasy.c:46-61 | a completion yields a value if and only if it is for uptime, the result is Ok and the length is 4, and the value is those bytes as a uint32 |
| `Router.UptimeRoundTrip` | Pebble/src/sleepeasy.c:46-61 | an Ok uptime completion carrying the little-endian bytes of n yields n |
| `Router.UptimeExample` | Pebble/src/sleepeasy.c:46-61 | `[0x64,0,0,0]` yields 100; a short payload, a failed result or another attribute yields nothing |
| `Router.Route` | Pebble/src/sleepeasy.c:95-102 | an ultrasound notification announces the time, an uptime notification reads uptime, and every other attribute is ignored, each if and only if |
| `Router.AvailabilityAfter` | Pebble/src/sleepeasy.c:32-43 | a report for another service keeps the status; for 0x1001 the status is Docked exactly when the report says available |
| `Router.AvailabilityIdempotent` | Pebble/src/sleepeasy.c:32-43 | repeating the same report changes nothing further |
| `Router.AvailabilityOverrides` | Pebble/src/sleepeasy.c:37-43 | after a report for 0x1001 the status does not depend on the earlier status |
| `Session.Exchange` | Pebble/src/sleepeasy.c:72-92 | a failed begin_write adds no write; otherwise exactly one write of the whole payload with request-read false and the outcome end_write gave |
| `Session.ExchangeWellFormed` | Pebble/src/sleepeasy.c:109-137 | every write an exchange adds to a writable attribute has its declared length and no follow-up read request |
| `Session.Session.constructor` | Pebble/src/sleepeasy.c:240-248 | the five handles are the declared attributes, the logs are empty and the status is the reported availability (line 204) |
| `Session.Session.AvailabilityChanged` | Pebble/src/sleepeasy.c:32-43 | the new status is `AvailabilityAfter` of the old one; nothing else changes |
| `Session.Session.DidRead` | Pebble/src/sleepeasy.c:46-61 | the handler changes no state and returns exactly `ReadCompletion` |
| `Session.Session.BeginWrite` | Pebble/src/sleepeasy.c:72 | the buffer handed out is new and as long as the attribute |
| `Session.Session.EndWrite` | Pebble/src/sleepeasy.c:88 | appends one record of the first `length` buffer bytes, which never exceed the buffer |
| `Session.Session.SayTime` | Pebble/src/sleepeasy.c:65-93 | the write log grows by `Exchange(say-time, begin, [hour, minute], end)` and the session stays valid |
| `Session.Session.MakeSound` | Pebble/src/sleepeasy.c:105-122 | the write log grows by `Exchange(sound, begin, [1], end)` |
| `Session.Session.ReNotify` | Pebble/src/sleepeasy.c:125-142 | the write log grows by `Exchange(renotify, begin, [startNotify ? 1 : 0], end)` |
| `Session.Session.FocusChanged` | Pebble/src/sleepeasy.c:163-171 | gaining focus sends renotify true and losing it sends false |
| `Session.Session.Notified` | Pebble/src/sleepeasy.c:95-102 | ultrasound adds one say-time exchange and no read; uptime adds exactly one read request for uptime and no write; any other attribute changes nothing |

## Left out

- Window, text layers, fonts, colours and layout (lines 196-220). They are presentation only. The status is kept as Docked/Undocked.
- Click handlers and their configuration (lines 145-161). They are input bindings. `MakeSound` and `SayTime` are exposed directly.
- `update_time` and the tick handler (lines 175-193). They format the clock for display only.
- The decimal rendering of uptime with `snprintf` (lines 60-62). Its output is never displayed, so `DidRead` returns the decoded value and stores nothing.
- `APP_LOG` calls. They are logging side effects, and the model does not record a failed end_write beyond its logged outcome.
- `time()` and `localtime()`. They are an external clock, so hour and minute are parameters. The source samples the clock after begin_write succeeds; the model takes the values the clock would give at that point.
- The Pebble SDK's internals: link bookkeeping, transmission, asynchrony, `smartstrap_subscribe`, and `smartstrap_service_is_available`. Their results are inputs. The model therefore does not track outstanding reads or writes per attribute, which the app never tracks either.
- The result of `smartstrap_attribute_read` is ignored by the source (line 100), so a read request is only logged.
- `init`, `deinit`, `main` and the event loop. They are lifecycle plumbing; attribute creation is the `Session` constructor and `smartstrap_attribute_destroy` is not modelled.
- `Session.Session.BeginWrite`: the buffer handed out is taken to be exactly the attribute's declared length, and the SDK's `length` out-parameter (sleepeasy.c:69, 72, 108-109) is not modelled. The writers rely on this for `buffer[0]` and `buffer[1]` to be in bounds, as the C code does without checking `length`.

# hipsaint message renderer in Dafny

hipsaint relays Nagios notifications to a HipChat room. The monitoring system
calls it with a message kind (`host`, `short-host`, `service` or
`short-service`) and one pipe-delimited string of Nagios macros. `HipchatMessage`
parses that string and `render_message()` sets the message colour from the
notification type and the host or service state. This project models that
renderer and proves what the test suite `hipsaint/tests.py` asserts about it.
The proofs cover every timestamp, not just one `datetime.now()` value.

`hipsaint/messages.py`, which implements `HipchatMessage`, is not part of this
model. Where the tests say nothing, the model makes these assumptions of its
own:

- the colour rule is checked in this order: an acknowledgement is purple, then
  a recovery is green, then the state decides;
- an unlisted state is red;
- the last field keeps any further pipes;
- fewer fields than the layout needs gives `InvalidInputFormat`;
- a kind name other than the four above gives `UnknownMessageKind`.

Modules:

- `Wrappers` (`wrappers.dfy`): `Option` and `Result`.
- `Fields` (`fields.dfy`): Python's `str.split(sep)` and `sep.join` on the
  field string, and the bounded split that gives an alert exactly its layout's
  number of fields. It proves that splitting and joining are inverse to each
  other.
- `Messages` (`messages.dfy`): the `Kind`, `Colour`, `HostEvent`,
  `ServiceEvent` and `Event` datatypes, and the `Error` taxonomy. It also holds
  `Parse` and `Format`, the colour rule `MessageColour`, `Render` (the whole
  of `render_message` as a function) and the class `HipchatMessage`.
  `HipchatMessage.RenderMessage` fills in the `messageColor` field the way
  `render_message()` fills in `message_color`.
- `MessageTests` (`message_tests.dfy`): the input templates of the test suite
  and one lemma for each test case's colour assertions. For each test case, a
  client method (`TestRenderHostProblem`, `TestRenderServiceWarning` and so on)
  repeats those assertions through `HipchatMessage` objects.

## Model

| member | source | states |
|---|---|---|
| `Fields.Find` | hipsaint/tests.py:27-30 | the position found is the first pipe of the string, or its length when it has none |
| `Fields.Split` | hipsaint/tests.py:27-30 | splitting the input on the pipe gives at least one piece, and no piece contains a pipe |
| `Fields.Join` | hipsaint/tests.py:27-30 | joining non-empty fields with pipes gives a line as long as all the fields together plus one pipe between each two; `JoinSplit` and `SplitJoin` tie it to `Split` as its inverse |
| `Fields.JoinSplit` | hipsaint/tests.py:27-30 | joining the pieces of a split with pipes gives back the original string |
| `Fields.SplitAfterPiece` | hipsaint/tests.py:27-30 | a pipe-free field followed by a pipe splits off as one piece, and the rest splits on its own |
| `Fields.SplitJoinFront` | hipsaint/tests.py:27-30 | splitting fields joined by pipes gives back every field but the last unchanged, followed by the pieces of the last field |
| `Fields.SplitJoinStep` | hipsaint/tests.py:27-30 | the inductive step of `SplitJoinFront`: a pipe-free first field splits off in front of what the other fields split into |
| `Fields.JoinAppend` | hipsaint/tests.py:27-30 | joining two non-empty lists of fields one after the other is joining each and putting a pipe between them |
| `Fields.SplitJoin` | hipsaint/tests.py:27-30 | splitting a join of pipe-free fields gives back exactly those fields |
| `Fields.SplitFields` | hipsaint/tests.py:27-30 | the bounded split succeeds exactly when the input has at least `n` fields; it then gives exactly `n` fields, and all but the last are the split's own pieces |
| `Fields.SplitFieldsJoin` | hipsaint/tests.py:27-30 | the fields of a bounded split join back to the input, and all but the last are free of pipes |
| `Fields.SplitFieldsOfJoin` | hipsaint/tests.py:27-30 | joining `n` fields whose first `n - 1` have no pipe and splitting into `n` fields gives them back, even when the last field holds pipes |
| `Messages.Kind.FieldCount` | hipsaint/tests.py:27-30 | host kinds read six fields and service kinds seven |
| `Messages.ParseKind` | hipsaint/tests.py:56-131 | a recognised name gives the kind with that name; a name that is none of the four kind names gives `UnknownMessageKind` with that name, and only such names do |
| `Messages.KindNameRoundTrip` | hipsaint/tests.py:56-131 | each kind is recognised from its own name (`host`, `short-host`, `service`, `short-service`) |
| `Messages.Parse` | hipsaint/tests.py:27-30 | parsing succeeds exactly when the input has at least the kind's number of fields, and otherwise fails with `InvalidInputFormat` carrying the input and the kind; a success is a host alert exactly for the host kinds |
| `Messages.Format` | hipsaint/tests.py:27-30 | an alert's input line is its fields joined by pipes; for a well-formed alert, splitting the line into the alert's number of fields gives back exactly those fields |
| `Messages.FormatParse` | hipsaint/tests.py:27-30 | a parsed alert is well formed (only its output may hold pipes), and writing it back gives the input it came from |
| `Messages.ParseFormat` | hipsaint/tests.py:27-30 | writing a well-formed alert as its input line and parsing it with the matching kind gives back the same alert |
| `Messages.ParsedFieldPositions` | hipsaint/tests.py:27-30 | the notification type is field 2 of a host input and field 3 of a service input; the state is field 4 and field 5 (counting from 0) |
| `Messages.HostStateColour` | hipsaint/tests.py:56-89 | a host state is green exactly when it is UP and red otherwise, so DOWN and the unlisted `UKNOWN` are red |
| `Messages.ServiceStateColour` | hipsaint/tests.py:91-117 | a service state is green exactly when it is OK, yellow exactly for WARNING, gray exactly for UNKNOWN, and red for every other state, CRITICAL included |
| `Messages.MessageColour` | hipsaint/tests.py:56-131 | purple exactly for ACKNOWLEDGEMENT, whatever the state. Green exactly for RECOVERY, or for a host UP or service OK that is not acknowledged. Yellow exactly for an unacknowledged, unrecovered service WARNING. Gray exactly for such a service UNKNOWN. Red in every other case, including unknown states |
| `Messages.Render` | hipsaint/tests.py:56-131 | a kind name that names no kind fails with `UnknownMessageKind`; for a named kind, rendering fails exactly when the input has too few fields, and then with `InvalidInputFormat` |
| `Messages.RenderFormatted` | hipsaint/tests.py:58-63 | the input line of a well-formed alert renders with the colour of its notification type and state alone |
| `Messages.ColourIgnoresTimestamp` | hipsaint/tests.py:58-63 | putting any other pipe-free timestamp into a parsed input leaves the rendered colour unchanged |
| `Messages.ShortHostSameColour` | hipsaint/tests.py:65-68 | `short-host` and `host` succeed on the same inputs and give the same colour |
| `Messages.ShortServiceSameColour` | hipsaint/tests.py:107-110 | `short-service` and `service` succeed on the same inputs and give the same colour |
| `Messages.HipchatMessage.constructor` | hipsaint/tests.py:61 | a new message keeps its kind name and input and has no colour yet |
| `Messages.HipchatMessage.RenderMessage` | hipsaint/tests.py:61-63 | returns the rendering of the message's kind and input. On success `messageColor` holds that colour; on an error it is left as it was |
| `MessageTests.HostInputs` | hipsaint/tests.py:27-28 | the host test template with any timestamp, notification type and state is the input line of the host alert `hostname`, `127.0.0.1`, `NAGIOS_OUTPUT` with those three fields |
| `MessageTests.ServiceInputs` | hipsaint/tests.py:29-30 | the service test template with any timestamp, notification type and state is the input line of the service alert `servicedesc`, `hostalias`, `127.0.0.1`, `NAGIOS_OUTPUT` with those three fields |
| `MessageTests.RenderHostInputs` | hipsaint/tests.py:56-89 | the host test input renders, for a host kind, with the colour of its notification type and host state |
| `MessageTests.RenderServiceInputs` | hipsaint/tests.py:91-131 | the service test input renders, for a service kind, with the colour of its notification type and service state |
| `MessageTests.HostProblemDownIsRed` | hipsaint/tests.py:56-68 | PROBLEM with host DOWN renders red, for `host` and for `short-host` |
| `MessageTests.HostRecoveryUpIsGreen` | hipsaint/tests.py:70-75 | RECOVERY with host UP renders green |
| `MessageTests.HostUnreachableUnknownStateIsRed` | hipsaint/tests.py:77-82 | UNREACHABLE with the unlisted host state `UKNOWN` falls back to red |
| `MessageTests.HostAcknowledgementIsPurple` | hipsaint/tests.py:84-89 | ACKNOWLEDGEMENT with host DOWN renders purple |
| `MessageTests.ServiceProblemWarningIsYellow` | hipsaint/tests.py:91-98 | PROBLEM with service WARNING renders yellow |
| `MessageTests.ServiceProblemCriticalIsRed` | hipsaint/tests.py:100-110 | PROBLEM with service CRITICAL renders red, for `service` and for `short-service` |
| `MessageTests.ServiceProblemUnknownIsGray` | hipsaint/tests.py:112-117 | PROBLEM with service UNKNOWN renders gray |
| `MessageTests.ServiceRecoveryOkIsGreen` | hipsaint/tests.py:119-124 | RECOVERY with service OK renders green |
| `MessageTests.ServiceAcknowledgementIsPurple` | hipsaint/tests.py:126-131 | ACKNOWLEDGEMENT with service CRITICAL renders purple |
| `MessageTests.TestRenderHostProblem` | hipsaint/tests.py:56-68 | built with `HipchatMessage` and rendered with `RenderMessage`, for every pipe-free timestamp: two messages of kind `host` and `short-host` on the PROBLEM/DOWN input each read back the colour name `red` |
| `MessageTests.TestRenderHostRecovery` | hipsaint/tests.py:70-75 | built with `HipchatMessage` and rendered with `RenderMessage`, for every pipe-free timestamp: a `host` message on the RECOVERY/UP input reads back `green` |
| `MessageTests.TestRenderHostUnreachable` | hipsaint/tests.py:77-82 | built with `HipchatMessage` and rendered with `RenderMessage`, for every pipe-free timestamp: a `host` message on the UNREACHABLE/UKNOWN input reads back `red` |
| `MessageTests.TestRenderHostAcknowledgement` | hipsaint/tests.py:84-89 | built with `HipchatMessage` and rendered with `RenderMessage`, for every pipe-free timestamp: a `host` message on the ACKNOWLEDGEMENT/DOWN input reads back `purple` |
| `MessageTests.TestRenderServiceWarning` | hipsaint/tests.py:91-98 | built with `HipchatMessage` and rendered with `RenderMessage`, for every pipe-free timestamp: a `service` message on the PROBLEM/WARNING input reads back `yellow` |
| `MessageTests.TestRenderServiceCritical` | hipsaint/tests.py:100-110 | built with `HipchatMessage` and rendered with `RenderMessage`, for every pipe-free timestamp: two messages of kind `service` and `short-service` on the PROBLEM/CRITICAL input each read back `red` |
| `MessageTests.TestRenderServiceUnknown` | hipsaint/tests.py:112-117 | built with `HipchatMessage` and rendered with `RenderMessage`, for every pipe-free timestamp: a `service` message on the PROBLEM/UNKNOWN input reads back `gray` |
| `MessageTests.TestRenderServiceRecovery` | hipsaint/tests.py:119-124 | built with `HipchatMessage` and rendered with `RenderMessage`, for every pipe-free timestamp: a `service` message on the RECOVERY/OK input reads back `green` |
| `MessageTests.TestRenderServiceAcknowledgement` | hipsaint/tests.py:126-131 | built with `HipchatMessage` and rendered with `RenderMessage`, for every pipe-free timestamp: a `service` message on the ACKNOWLEDGEMENT/CRITICAL input reads back `purple` |

## Left out

- `deliver_payload()` and its HTTP POST to HipChat (hipsaint/tests.py:32-54) are not modelled: this is network I/O. The tests only show that an error reply (401 with an `error` object) is handed back to the caller as a response, not raised.
- JSON encoding and decoding of the reply, and the mock helpers (hipsaint/tests.py:8-22), are left out: they are library calls and test scaffolding.
- The rendered message body, its templates and HTML escaping are left out: no test asserts them, and the implementing file is not part of this model.
- `datetime.now()` is not modelled. The timestamp is an opaque field, and each test lemma holds for every timestamp without a pipe.
- The room id, auth token and notify flag are left out: only delivery uses them. The constructor takes just the kind name and the input.
- Messages.ParseKind: kind names are matched exactly. A name that only contains `host` or `service` as a substring is an unknown kind.
- Messages.Parse: fields are taken as they are, without trimming whitespace.
- A Python exception becomes an `Err` result. An input with too few fields gives `InvalidInputFormat`, and an unknown kind gives `UnknownMessageKind`.

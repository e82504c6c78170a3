# Pusher dispatch registry and route formatting, in Dafny

This project models two parts of the goprops toolkit.

**The pusher dispatch registry** (`websocket/pusher/registry.go`). It has a
client directory that maps a client ID to a client handle, and an event table
that maps an event name to an Event. An Event has a name and a Broadcast
channel. Producers submit a payload with `DelegateEvent`. The payload holds a
target client ID, the data, and a Response channel. When the event name is
known, the payload is put on that event's Broadcast channel. When the name is
unknown, a single `false` is written to the payload's Response channel. `Run`
starts one worker for each table entry. A worker takes payloads off its
event's channel in order and looks up the target client. It writes `false`
when the client is missing. When the client is found, it calls the client's
`Send` with the data and the Event's own `Name`, and writes `false` when the
send fails. A successful send writes nothing: the producer only hears about
failures. The model keeps this as the code has it.

The registry is the class `Pusher.SocketRegistry`. Its fields are the two maps
and three more that stand for the channels and goroutines:

- `Broadcasts`: the payloads waiting on each Broadcast channel, by channel identity.
- `Responses`: the log of every write to a Response channel.
- `Workers`: the workers started so far. Each is recorded with the table entry it was started for.

Each method is specified by a pure transition on the state value `Dispatch`
(`Snapshot()` reads it off the object). The properties that span several calls
are lemmas about those transitions:

- `FifoPerEvent`: payloads submitted to one event are delivered in order, and the producers hear back exactly the failures, in order.
- `DelegateAllKnown` and `DelegateAllUnknown`: what a run of submissions does.
- `SpawnedOnePerEvent`: `Run` starts exactly one worker per table entry.
- `SuccessIsSilent`: successful deliveries never produce a response.

The transport's `Send` is an oracle: a function from (client, data, event name)
to success, passed to each worker step. A run of several worker steps takes one
oracle per step, so the same send may fail at one step and succeed at another.

**Route formatting** (`http/routing/types.go`). `GetURI` joins a route's
namespace, version and resource path with `/`. `String` gives the labelled
description `Name: …, Method: …, Version: …, URI: …`. Besides their shape
(length, prefix, suffix, which fields they read), each format has an inverse
parser, and the round trips are proved in both directions:

- A URI splits back into its three parts when the namespace and version hold no `/`.
- A description parses back into its fields when the name, method and version hold no `,`.

`GetURIAmbiguous` shows why the restriction is needed: without it, two different routes share one URI.

Three points of the code's behaviour that the model keeps:

- `RegisterEvents` is public and may add or overwrite entries at any time. The table is not fixed at construction.
- `NewPusherRegistry` does not validate the transport configuration.
- `Run` starts one worker per table entry, given that entry's Event value. Two entries may hold the same Event, and then it gets two workers.

## Model

| member | source | states |
|---|---|---|
| `Pusher.Register` | websocket/pusher/registry.go:39-42 | the ID now maps to the given handle; every other ID keeps its binding or its absence; nothing else in the registry changes |
| `Pusher.Unregister` | websocket/pusher/registry.go:45-47 | the ID is absent afterwards, whichever handle was stored; no-op when it was absent; other IDs unchanged |
| `Pusher.LastWriteWins` | websocket/pusher/registry.go:41 | registering two handles with the same ID leaves the state that registering only the second gives |
| `Pusher.UnregisterAfterRegister` | websocket/pusher/registry.go:46 | unregistering by a handle's ID removes whatever other handle was registered under that ID |
| `Pusher.InstallEvents` | websocket/pusher/registry.go:32-36 | every key of the given map is bound to its Event from the map; keys not in it keep their previous binding or absence |
| `Pusher.Initial` | websocket/pusher/registry.go:115-123 | a new registry has no clients, the supplied event table, no pending payloads, no responses and no workers |
| `Pusher.Delegate` | websocket/pusher/registry.go:74-82 | known name: the payload is appended to that event's channel, every other channel is unchanged, and no response is written; unknown name: exactly one `false` for the payload's Response channel and no channel changes; maps unchanged |
| `Pusher.Deliver` | websocket/pusher/registry.go:59-70 | one worker iteration removes only the oldest payload of its channel; client missing: exactly one `false`; client found and Send with the Event's Name fails: exactly one `false`; Send succeeds: no response; an empty channel changes nothing; maps unchanged |
| `Pusher.Spawned` | websocket/pusher/registry.go:86-89 | the workers started hold exactly the table's entries, each with its own Event |
| `Pusher.Launch` | websocket/pusher/registry.go:85-90 | `Run` adds exactly one worker for each current table entry; the count of every other worker, including those already running, stays as it was |
| `Pusher.SpawnedOnePerEvent` | websocket/pusher/registry.go:86-89 | `Run` starts as many workers as the table has entries |
| `Pusher.DelegateAllKnown` | websocket/pusher/registry.go:75-77 | submitting payloads in order to a known event appends them, in that order, to its channel, changes no other channel and writes no response |
| `Pusher.DelegateAllUnknown` | websocket/pusher/registry.go:78-81 | submitting payloads to an unknown event writes one `false` per payload, in order, and queues nothing |
| `Pusher.DrainInOrder` | websocket/pusher/registry.go:59-70 | n worker iterations, each with its own send outcome, consume exactly the n oldest payloads of the channel; every other channel keeps its payloads; the responses are the failures among them in queue order |
| `Pusher.FifoPerEvent` | websocket/pusher/registry.go:58-82 | payloads submitted to an idle event and then drained, one send outcome per step, are delivered in submission order, leaving the channel empty and every other channel as it was, and the producers receive exactly the failures, in order |
| `Pusher.SuccessIsSilent` | websocket/pusher/registry.go:63-65 | when every target client exists and every send succeeds at its own step, the worker writes no response at all |
| `Pusher.FailureAcksBounded` | websocket/pusher/registry.go:61-68 | the responses pair, in order and one to one, with the payloads that fail: response i is `false` on the Response channel of the payload at a strictly increasing position idx[i], that payload failed, and every failing payload has its response; so there are at most as many responses as payloads |
| `Pusher.SocketRegistry.constructor` | websocket/pusher/registry.go:107-126 | `NewPusherRegistry`: a fresh transport with the given app ID, key, secret and cluster, and the initial state with the supplied events |
| `Pusher.SocketRegistry.RegisterEvents` | websocket/pusher/registry.go:32-36 | the loop that stores each entry leaves the table equal to the old table overridden by the given map; nothing else changes |
| `Pusher.SocketRegistry.RegisterClient` | websocket/pusher/registry.go:39-42 | the handle's transport reference is the registry's transport, and the directory is updated as `Register` states |
| `Pusher.SocketRegistry.UnRegisterClient` | websocket/pusher/registry.go:45-47 | the directory is updated as `Unregister` states for the handle's ID |
| `Pusher.SocketRegistry.GetClient` | websocket/pusher/registry.go:50-55 | returns the stored handle and true exactly when the ID is in the directory, and null and false otherwise; changes nothing |
| `Pusher.SocketRegistry.DelegateEvent` | websocket/pusher/registry.go:74-82 | the new state is the one `Delegate` describes |
| `Pusher.SocketRegistry.WorkerStep` | websocket/pusher/registry.go:58-71 | one iteration of `NewWorker`: reports whether a payload was received, and the new state is the one `Deliver` describes |
| `Pusher.SocketRegistry.Run` | websocket/pusher/registry.go:85-90 | the loop over the table leaves the state `Launch` describes: one more worker per entry |
| `Routing.GetURI` | http/routing/types.go:26-28 | the URI's length is the three fields' lengths plus 2; it starts with the namespace, '/', the version and '/', and ends with '/' and the resource path, also when fields are empty |
| `Routing.String` | http/routing/types.go:19-23 | the description starts with "Name: " and the name, continues with ", Method: ", the method, ", Version: " and the version, ends with ", URI: " and the URI, and has the length of its labels and fields |
| `Routing.GetURIOnlyPathFields` | http/routing/types.go:26-28 | the URI depends only on the namespace, the version and the resource path |
| `Routing.StringIgnoresHandler` | http/routing/types.go:19-23 | the description depends only on name, method and the URI fields, never on the handler |
| `Routing.SplitURISound` | http/routing/types.go:27 | any split of a URI into three parts joins back with '/' into that URI, with no '/' in the first two parts |
| `Routing.SplitURIRoundTrip` | http/routing/types.go:27 | a route whose namespace and version hold no '/' gets its three URI fields back from its URI |
| `Routing.GetURIAmbiguous` | http/routing/types.go:27 | two different routes, with '/' inside namespace or version, have the same URI |
| `Routing.ParseStringSound` | http/routing/types.go:20-22 | any parse of a description formats back into that description, with no ',' in name, method or version |
| `Routing.ParseStringOf` | http/routing/types.go:20-22 | the labelled format parses back into its four fields when the first three hold no ',' |
| `Routing.StringRoundTrip` | http/routing/types.go:19-23 | a route's description gives back its name, method, version and URI when those fields hold no ',' |

## Left out

- Goroutines, channel blocking and `select` are not modelled. A worker step runs one iteration of the `NewWorker` loop, and an empty channel leaves the state unchanged; that is where the goroutine would block. Steps of different workers and producers are interleaved only as the caller sequences them.
- Broadcast and Response channels are modelled as an unbounded queue per channel identity and a single write log. The handshake of an unbuffered channel, and a producer blocking forever on a success, are not modelled.
- `WaitForShutdown` and `ShutDownSig` (websocket/pusher/registry.go:92-104) are not modelled. They are a self-re-arming signal loop with logging and change no registry data.
- The logger and the package-level `registry` variable (websocket/pusher/registry.go:11) are not modelled. The model has a single explicit instance.
- The pusher transport (websocket/pusher/registry.go:108-113) keeps only its four configuration strings. Its network behaviour is not modelled.
- `RegistryClient.Send` and the `Event` type are defined in files that are not part of this model. Send is an oracle parameter, and Event is modelled as a name plus a channel identity.
- `Routes.String` (http/routing/types.go:33-40) is not modelled. It prints each `Route` with Go's default struct formatting, which includes a function pointer and has no stable text.
- `HandlerFunc` is an opaque number standing for the handler's identity.
- Data bytes are `seq<bv8>`. Strings are sequences of characters, as Go's `%v` prints them unchanged.

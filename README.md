# Disk manager request processing, modelled in Dafny

This project models the request-processing core of the Bynar disk manager.
The disk manager is a server on a storage-cluster node. It receives
protobuf-encoded `Operation` requests and decodes each one. It checks the
caller's token against a secrets service (Vault), then routes the request
by kind:

- Add, Remove and SafeToRemove go to a storage backend. The Gluster backend
  is the one modelled concretely.
- List goes to device discovery. Discovery lists the host's block devices
  with their media type, serial number and GPT partitions.
- AddPartition is accepted and does nothing.

For each request, the server either sends exactly one reply or sends
nothing.

Modules, one per component:

- `Wrappers`: `Option`, and `Result` with the error carried as its text.
- `Api`: the protobuf messages the server reads and writes (`Operation`,
  `Disk`, `Partition`, `OpResult`, `OpBoolResult`) and the three reply shapes.
- `GuidFormat`: the hyphenated lower-case text form of a partition GUID,
  with its inverse.
- `Gluster`: the Gluster backend. It is a unit struct whose operations are
  stubs.
- `Backends`: the backend sum type. `Gluster` is one variant. `External`
  stands for a backend whose code is not in this model; it carries its
  answers as functions. The module also defines the log entry for each call
  made into a backend or into discovery.
- `Discovery`: media-type translation, partition conversion, and the loop
  that builds the disk list.
- `Auth`: the token gate.
- `Dispatch`: pure functions. `Handle` gives what one request produces (the
  reply, if any, and the calls made). `Run` gives the same over a stream of
  requests. The lemmas about the stream are here too.
- `Listener`: the class `Server`. Its methods mirror `listen`, `add_disk`,
  `remove_disk`, `safe_to_remove_disk` and `list_disks`. Sending a reply
  appends it to a reply log, and every backend or discovery call is appended
  to a call log. Each method is proved against the `Dispatch` functions.
- `Scenarios`: end-to-end consequences with the Gluster backend and with a
  backend that refuses a removal.

Foreign pieces are inputs to the model:

- The protobuf decoder is a function from bytes to an optional `Operation`.
  It is fixed for the server.
- The other foreign answers come in a `World` value that travels with each
  request: what Vault returns, the outcome of `load_backend`, the device
  list from `block_utils`, and a function from a device path to the GPT
  entries read there (or a read error).

The token gate is reproduced as written. It accepts a caller exactly when
the fetched secret is *different* from the caller's token. That looks
inverted against the usual "equal means valid" rule. `Auth.GateIsInverted`
states the inversion: once the secret is fetched, exactly the callers who
present it are refused.

Some requests get no reply. A backend that fails to load, or a device
enumeration that fails, sends nothing: `add_disk`, `remove_disk`,
`safe_to_remove_disk` and `list_disks` return before sending
(`disk-manager/src/main.rs` lines 199-203, 284, 301-305, 331-335).

## Model

| member | source | states |
|---|---|---|
| `Gluster.GlusterBackend.AddDisk` | disk-manager/src/backend/gluster.rs:32-41 | adding succeeds for every device, id, journal, journal partition and simulate flag |
| `Gluster.GlusterBackend.RemoveDisk` | disk-manager/src/backend/gluster.rs:43-47 | removing succeeds for every device and simulate flag; as a pure function of a field-less value it changes no state, so a simulated removal takes no action |
| `Gluster.GlusterBackend.SafeToRemove` | disk-manager/src/backend/gluster.rs:49-55 | with simulate set the answer is Ok(true), as the doc comment requires; for every input it succeeds and answers true |
| `Backends.Backend.AddDisk` | disk-manager/src/backend/gluster.rs:31-41 | through the backend abstraction, the Gluster backend accepts every add, and an external backend gives its own answer |
| `Backends.Backend.RemoveDisk` | disk-manager/src/backend/gluster.rs:43-47 | through the backend abstraction, the Gluster backend accepts every removal, and an external backend gives its own answer |
| `Backends.Backend.SafeToRemove` | disk-manager/src/backend/gluster.rs:49-56 | through the backend abstraction, the Gluster backend answers Ok(true) to every check, and an external backend gives its own answer |
| `Auth.ValidateVaultToken` | disk-manager/src/main.rs:357-373 | accepts iff the secret was fetched and differs from the client token; a connect or fetch failure refuses with that failure's message; a token equal to the secret is refused with "client token is invalid" |
| `Auth.GateIsInverted` | disk-manager/src/main.rs:369-372 | once the secret is fetched, the gate accepts exactly the callers who do not hold it |
| `Discovery.ConvertMediaToDiskType` | disk-manager/src/main.rs:41-53 | the translation is total, and `DiskTypeToMedia` recovers the media type from its result, so no two media types share a disk type |
| `Discovery.ConvertMediaInjective` | disk-manager/src/main.rs:41-53 | two media types with the same disk type are the same media type |
| `Discovery.ConvertMediaSurjective` | disk-manager/src/main.rs:41-53 | every one of the nine disk types is the translation of a media type |
| `GuidFormat.Hyphenated` | disk-manager/src/main.rs:271 | the uuid text is 36 characters long, with hyphens at positions 8, 13, 18 and 23; with the hyphens removed it is the hex text of the 16 GUID bytes in order |
| `GuidFormat.ParseHyphenatedOfHyphenated` | disk-manager/src/main.rs:271 | reading the uuid text back gives the GUID it was made from |
| `GuidFormat.HyphenatedInjective` | disk-manager/src/main.rs:271 | distinct GUIDs get distinct uuid texts |
| `GuidFormat.ParseHexOfHex` | disk-manager/src/main.rs:271 | reading hex text back gives the bytes it was made from |
| `Discovery.PartitionOf` | disk-manager/src/main.rs:269-277 | a converted partition keeps first_lba, last_lba, flags and name, and its uuid reads back as the entry's GUID |
| `Discovery.GetPartitionInfo` | disk-manager/src/main.rs:261-281 | fails exactly when the table read fails, with that error; otherwise gives one partition per entry, in entry order, each the conversion of its entry |
| `Discovery.PartitionsWellFormed` | disk-manager/src/main.rs:267-279 | if every entry read has first_lba <= last_lba, so does every partition reported |
| `Discovery.DiskOf` | disk-manager/src/main.rs:244-255 | the disk's path is "/dev/" followed by the device name; its type is the device's media translated; its serial is set exactly when the device has one; a failed partition read gives an empty partition list; a successful read gives exactly the partitions `GetPartitionInfo` converts, with their count, order and fields |
| `Discovery.Discover` | disk-manager/src/main.rs:226-259 | discovery fails exactly when enumeration fails; otherwise it gives one disk per device, in device order |
| `Discovery.GetDisks` | disk-manager/src/main.rs:226-259 | the push loop returns exactly what `Discover` specifies |
| `Dispatch.OpResultOf` | disk-manager/src/main.rs:204-215 | status OK iff the backend succeeded; an error message is present iff the status is ERR; a client reading the record back recovers the backend's outcome, including the error text |
| `Dispatch.OpBoolResultOf` | disk-manager/src/main.rs:336-346 | status OK iff the backend answered; the value is set iff OK and the message is set iff ERR; a client reading the record back recovers the backend's answer or error text |
| `Dispatch.Handle` | disk-manager/src/main.rs:71-185 | an undecodable message or a refused token gives no reply and no call; a missing disk on Add, Remove or SafeToRemove gives no reply and no call, and so does AddPartition; a backend that fails to load is not called and nothing is sent; a failed enumeration sends nothing; a reply goes out exactly when `Answered` holds; at most one call is made per request, never with simulate set, and every reply follows exactly one call; Add passes the disk, id, journal and journal partition of the request; the reply to Add or Remove is the `OpResultOf` the backend's outcome, to SafeToRemove the `OpBoolResultOf` its answer, and to List the discovered disks |
| `Dispatch.HandleAdd` | disk-manager/src/main.rs:199-221 | a backend that fails to load gives no reply and no call; otherwise one add call with simulate false, answered with the `OpResultOf` its outcome |
| `Dispatch.HandleRemove` | disk-manager/src/main.rs:301-321 | a backend that fails to load gives no reply and no call; otherwise one remove call with simulate false, answered with the `OpResultOf` its outcome |
| `Dispatch.HandleSafeToRemove` | disk-manager/src/main.rs:331-352 | a backend that fails to load gives no reply and no call; otherwise one safe-to-remove call with simulate false, answered with the `OpBoolResultOf` its answer |
| `Dispatch.HandleList` | disk-manager/src/main.rs:283-295 | enumeration is always attempted; a reply goes out exactly when it succeeds, and that reply is the discovered disk list |
| `Dispatch.Run` | disk-manager/src/main.rs:58-188 | over a stream of requests, neither the replies sent nor the calls made outnumber the requests |
| `Dispatch.RunRepliesCountAnswered` | disk-manager/src/main.rs:71-187 | over a stream of requests, the server sends exactly one reply per answered request, so never more replies than requests |
| `Dispatch.RunCallsOnlyWhenAuthorised` | disk-manager/src/main.rs:75-93 | over a stream, the number of backend and discovery calls is at most the number of requests that decode and pass the token gate |
| `Dispatch.RunNeverSimulates` | disk-manager/src/main.rs:207 | no backend call made by the server over any stream asks the backend to simulate (the same holds at lines 307 and 337) |
| `Dispatch.RunAppend` | disk-manager/src/main.rs:71-187 | requests are handled independently: the replies and calls of a concatenated stream are those of the two parts, in order |
| `Dispatch.UnansweredSendsNothing` | disk-manager/src/main.rs:75-80 | a request that is not answered (a malformed one, for instance) adds no reply, and the loop goes on |
| `Listener.Server.AddDisk` | disk-manager/src/main.rs:190-224 | fails, sending nothing and calling nothing, exactly when the backend does not load; otherwise logs one add call with simulate false and sends the OpResult of the backend's outcome |
| `Listener.Server.RemoveDisk` | disk-manager/src/main.rs:299-323 | fails, sending nothing, exactly when the backend does not load; otherwise logs one remove call with simulate false and sends the OpResult of its outcome |
| `Listener.Server.SafeToRemoveDisk` | disk-manager/src/main.rs:325-354 | fails, sending nothing, exactly when the backend does not load; otherwise logs one safe-to-remove call with simulate false and sends the OpBoolResult of its answer |
| `Listener.Server.ListDisks` | disk-manager/src/main.rs:283-297 | fails, sending nothing, exactly when enumeration fails; otherwise sends the discovered disk list |
| `Listener.Server.HandleRequest` | disk-manager/src/main.rs:72-185 | one pass of the loop appends to the reply and call logs exactly what `Handle` specifies |
| `Listener.Server.Listen` | disk-manager/src/main.rs:58-188 | after a stream of requests, the reply and call logs have grown by exactly what `Run` specifies |
| `Scenarios.GlusterAddAnsweredOk` | disk-manager/src/main.rs:204-210 | with the Gluster backend, every authorised add of a named disk is answered OK with no message |
| `Scenarios.GlusterRemoveAnsweredOk` | disk-manager/src/main.rs:306-310 | with the Gluster backend, every authorised removal of a named disk is answered OK with no message |
| `Scenarios.GlusterSafeToRemoveAnsweredTrue` | disk-manager/src/main.rs:336-341 | with the Gluster backend, every authorised safe-to-remove check of a named disk is answered OK with value true |
| `Scenarios.RemoveRefusedAnsweredErr` | disk-manager/src/main.rs:311-314 | a removal the backend refuses with message m is answered ERR with message m |
| `Scenarios.ListReportsEveryDevice` | disk-manager/src/main.rs:283-295 | an authorised List whose device enumeration succeeds is answered with as many disks as there are host devices |
| `Scenarios.RefusedTokenNoReply` | disk-manager/src/main.rs:84-93 | a decoded request whose token is refused gives no reply and no call, whatever its kind |

## Left out

- The ZeroMQ transport is left out: creating the socket, binding it to port 5555, receiving, sending and the 10 ms sleep after each request. Receiving is reading the next element of the request sequence, and sending is appending to the reply log. So `Listen` handles a finite stream of requests, while `listen` loops forever until a receive fails.
- The ZeroMQ REP socket's own state machine is left out. That socket refuses a second receive before a reply has been sent. The model follows the control flow of `listen`, which goes on to the next receive after a dropped request; the transport's reaction to that is not captured.
- Encoding a reply (`write_to_bytes`, `Message::from_slice`) and sending it are assumed to succeed. In the code, a failure there makes `add_disk` and the other handlers return an error, which `listen` only logs.
- Protobuf decoding is not modelled. It is a fixed function from bytes to an optional `Operation`. An absent token is the empty string, as `get_token` gives it.
- The Vault client is not modelled: connecting and fetching the secret are an input `VaultAnswer`. The endpoint, connect token and key that `listen` passes on only choose that answer, so they are not modelled separately.
- `block_utils` device enumeration and udev lookup are not modelled. The device list, or its failure, is an input.
- GPT header and entry parsing in the `gpt` crate is not modelled. The entries read at a device path, or the read error, are an input. So is the byte order of the GUID that the crate produces.
- `backend::load_backend`, `BackendType` and the Ceph backend are not part of this model. Loading is an input that may fail, and a backend other than Gluster is `External`: its answers are the functions it carries. The configuration directory only chooses that input.
- Logging, and the CLI parsing and logger set-up in `main`, are left out.
- `client/src/main.rs` is not part of this model. It is a demonstration client with no logic of its own.

# VANET clustering with an SDN controller: a Dafny model of the core

The simulated system has three parts:

- Vehicles send cooperative awareness messages (CAMs) to their nearest roadside unit (RSU).
- Each RSU buffers the records it receives. When an RSU stops, it adds its buffer to a process-wide store.
- The RSU whose stop completes the set clusters all the records into 4 groups and sends the cluster centres to an OpenFlow switch.

The repository also defines an SDN controller for that switch. The scenario creates one but never installs it: the controller argument of `InstallController` is commented out (vehicular_network.cc:194). Its handlers, modelled here, therefore never run in the scenario as written.

This project models the sequential logic under the simulator and library calls:

- `wire.dfy` (`Wire`): bytes, fixed-width unsigned integers, and the little-endian layout `memcpy` produces on the simulation host.
- `cam.dfy` (`Cam`): the `CAMData` record and its raw-memory image. This covers the `memcpy` in `SendCAM` and the `Packet::CopyData` in `HandleRead`.
- `clustering.dfy` (`Clustering`): the data reshaping around k-means in `PerformClustering`, which flattens the store and regroups it by label. It also covers the row-major serialisation in `SendClusters`.
- `cam_server.dfy` (`CamServer`): the `CAMServer` application.
  - Class `Globals` holds `globalCAMData` and the static `numStoppedRSUs`.
  - Class `CamServer` holds the receive buffer and the stop barrier.
  - `StopAllRsus` runs the stop events of all servers one after the other.
- `cam_client.dfy` (`CamClient`): the `CAMClient` application and its send-timer state, plus an event-level model of the same client.
- `controller.dfy` (`Controller`): `SDNController`. The handshake rule and the packet-in decision are returned as lists of actions.
- `placement.dfy` (`Placement`): `GetNearestRSU` and the position arithmetic in `main`.

ns-3 runs events on one thread, so each operation is modelled as running to completion. Doubles and floats are opaque IEEE-754 bit patterns (`u64`, `u32`); the model moves them but never computes with them. The positions in `main` are the exception: they are modelled as exact reals.

The model follows the code as written in these places:

- `HandleRead` has no size check. A datagram of any length yields a record. In a short datagram the missing bytes come from the uninitialised local struct (`Cam.ShortDatagramIdFromStaleMemory`).
- A record on the wire is `sizeof(CAMData)` = 32 bytes: 28 bytes of fields, then 4 bytes of tail padding after the 32-bit id.
- Clustered records carry the collecting RSU's node id, not the reporting vehicle's id (`Clustering.ClusterCarriesNodeId`).
- `PerformClustering` does not check that there are at least as many records as clusters before it calls `cv::kmeans`. With fewer than 4 records that library call throws, which ends the simulation. The model does not capture this abort (see "## Left out").

## Model

| member | source | states |
|---|---|---|
| `Cam.DecodeImage` | cam.h:208-209 | Definition: reads the three doubles and the id out of a 32-byte image at offsets 0, 8, 16 and 24, and ignores the padding. Its properties are the round trips below |
| `Cam.Decode` | cam.h:208-209 | Definition: what `HandleRead` makes of one datagram, which is `CopyData` into the stale struct followed by `DecodeImage` |
| `Cam.Encode` | cam.h:366-368 | The buffer `SendCAM` sends is exactly `sizeof(CAMData)` = 32 bytes |
| `Cam.EncodeDecodeRoundTrip` | cam.h:359-368 | Decoding the buffer `SendCAM` builds, as `HandleRead` does, gives back the record that was sent, whatever the receiver's uninitialised struct held |
| `Cam.DecodeEncodeRoundTrip` | cam.h:208-209 | Conversely, a 32-byte image with zero padding is the encoding of the record decoded from it, so the layout loses nothing |
| `Cam.CopyData` | cam.h:209 | `CopyData` copies min(packet size, 32) bytes. If the packet is shorter, the remaining bytes keep the stale contents |
| `Cam.LongDatagramDecodesPrefix` | cam.h:208-209 | A datagram of at least 32 bytes is decoded from its first 32 bytes alone; trailing bytes and stale memory play no part |
| `Cam.ShortDatagramIdFromStaleMemory` | cam.h:207-212 | There is no length check. An empty datagram yields a record whose id depends on the stale memory (two stale images give ids 0 and 1) |
| `Wire.LittleEndian` | cam.h:77 | Definition: the k-byte image `memcpy` makes of an unsigned value on a little-endian host (also cam.h:367), least significant byte first |
| `Wire.LittleEndianRoundTrip` | cam.h:77 | Reading back the little-endian bytes `memcpy` writes for a k-byte unsigned value yields the value |
| `Wire.FromLittleEndianRoundTrip` | cam.h:209 | Every byte string is the little-endian image of the integer it denotes |
| `CamServer.DecodeAll` | cam.h:207-213 | Draining the socket yields exactly one record per datagram |
| `CamServer.EncodeAll` | cam.h:366-373 | A run of sends puts exactly one datagram per record on the wire |
| `CamServer.DecodeAllEncodeAll` | cam.h:207-213 | A server receiving the datagrams of a run of sends decodes exactly the sent records, in arrival order |
| `CamServer.CamServer.HandleRead` | cam.h:204-214 | Every received datagram is appended to `m_camData` in arrival order. Nothing is removed and nothing is filtered |
| `CamServer.Globals.constructor` | cam.h:27 | The store starts empty and the stop counter starts at 0 (cam.h:96) |
| `CamServer.CamServer.constructor` | cam.h:135-139 | A server starts with an empty buffer. `m_numRSUs` is a parameter (set by `SetNumRSUs`, cam.h:165-167) |
| `CamServer.CamServer.UpdateGlobalCamData` | cam.h:197-200 | Appends the server's whole buffer to `globalCAMData` as exactly one new batch |
| `CamServer.CamServer.PerformClustering` | cam.h:216-272 | Overwrites the store with the regrouping of its flattened rows by the k-means labels, and returns the centres |
| `CamServer.CamServer.SendClusters` | cam.h:67-90 | Sends exactly one datagram to the switch: the row-major image of the centre matrix |
| `CamServer.CamServer.StopApplication` | cam.h:169-191 | Appends one batch and increments the counter by exactly 1. Clustering and sending happen iff the new count equals `m_numRSUs`; otherwise the store only grows. On the first firing the store held all `m_numRSUs` batches, the firing server's own included. Keeps the barrier invariant |
| `CamServer.StopAllRsus` | cam.h:169-191 | When the N servers stop one after the other in any order, clustering runs exactly once, on the last stop. It runs over the N buffers in stop order. The last server to stop sends the centres to the switch once, and no other server sends anything. Every server's buffer is left as it was |
| `Clustering.TotalLength` | cam.h:221-225 | Definition: `numDataPoints`, the sum of the batch lengths. `Clustering.Flatten` and `Clustering.CountDataPoints` are stated against it |
| `Clustering.Flatten` | cam.h:221-238 | The flattened rows number `numDataPoints`, the sum of the batch lengths |
| `Clustering.FlattenAt` | cam.h:228-238 | Record j of batch k is row (size of batches before k) + j: batch order first, then in-batch order |
| `Clustering.FlattenAppend` | cam.h:199 | Flattening a store extended by one batch appends that batch's rows |
| `Clustering.CountDataPoints` | cam.h:221-225 | The counting loop computes the number of rows of the flattened store |
| `Clustering.FillDataPoints` | cam.h:228-238 | The nested filling loop produces exactly the flattened store |
| `Clustering.Stamp` | cam.h:260-264 | Definition: the record pushed for a row keeps the row's position and speed and takes the server's node id |
| `Clustering.Cluster` | cam.h:257-266 | Definition: cluster g is the stamped rows labelled g, in row order. Its properties are `Clustering.ClusterIsIndexed`, `Clustering.ClusterCarriesNodeId` and `Clustering.RegroupIsPartition` |
| `Clustering.Regroup` | cam.h:257 | Regrouping yields exactly `numClusters` = 4 groups |
| `Clustering.ClusterIsIndexed` | cam.h:257-266 | Cluster g is the stamped rows whose label is g, in row order. Every row with label g lands in cluster g, no other row does, and order follows row order |
| `Clustering.IndicesSpec` | cam.h:258-259 | The rows selected for cluster g are exactly those labelled g, each once, in increasing order |
| `Clustering.RegroupIsPartition` | cam.h:257-266 | Partition law: the 4 clusters together hold every stamped row exactly once (as a multiset), and their sizes sum to `numDataPoints` |
| `Clustering.ClusterCarriesNodeId` | cam.h:264 | Every regrouped record carries the collecting server's node id, not the vehicle's |
| `Clustering.RegroupRows` | cam.h:257-266 | The regrouping loop produces exactly the regrouping by label |
| `Clustering.MatrixBytes` | cam.h:69-80 | Definition: the buffer `SendClusters` sends, with each row's 4-byte float images one after the other, row after row. Its properties are the three lemmas below |
| `Clustering.MatrixBytesLength` | cam.h:69-72 | The serialised buffer holds exactly rows * cols * 4 bytes |
| `Clustering.MatrixBytesAt` | cam.h:73-80 | Element (i, j) occupies bytes [(i * cols + j) * 4, (i * cols + j) * 4 + 4) |
| `Clustering.ReadCellRoundTrip` | cam.h:73-80 | Reading the 4 bytes at element (i, j)'s offset gives back element (i, j) |
| `Clustering.SerializeMatrix` | cam.h:69-80 | The loop writing each float at an offset advancing by 4 fills a rows * cols * 4 buffer with the row-major image |
| `Clustering.CopyFloat` | cam.h:76-78 | One `memcpy` writes a float's 4 bytes at the offset. Every byte before and after those 4 keeps its value |
| `CamClient.CamClient.constructor` | cam.h:124-131 | A client starts with no socket and no pending send |
| `CamClient.CamClient.StartApplication` | cam.h:328-339 | Creates a socket only if there is none, connects it and schedules a send at once |
| `CamClient.CamClient.SendCam` | cam.h:350-379 | Sends exactly one datagram, the 32-byte encoding of the sampled record with the vehicle's node id, then re-arms the timer |
| `CamClient.CamClient.StopApplication` | cam.h:340-348 | Cancels the pending send and closes the socket if there is one; nothing is sent |
| `CamClient.Step` | cam.h:328-379 | Definition: the effect of one start, send or stop event on the pending flag and the records sent. The class methods are proved to follow it |
| `CamClient.NoSendAfterStop` | cam.h:340-343 | Once stopped, a client sends nothing until it is started again |
| `CamClient.RunAppendsOwnRecords` | cam.h:359-378 | Any run of events only appends to the sent records, and every record sent carries the client's own node id |
| `Controller.SdnController.constructor` | vehicular_network.cc:19 | `m_port` starts at 1 |
| `Controller.SdnController.SetPort` | vehicular_network.cc:23-25 | Changes `m_port` and nothing else |
| `Controller.SdnController.HandshakeSuccessful` | vehicular_network.cc:27-37 | Issues exactly one command to the connecting switch: the baseline rule of line 32 |
| `Controller.SdnController.HandlePacketIn` | vehicular_network.cc:39-66 | Issues a flow-mod iff the packet is IPv4 and the datapath is 2, and then only the priority-1000 rule `in_port=<inPort> actions=output:<m_port>`. Forwards the packet exactly once, as the last action, out the current `m_port` with the original `in_port`. Issues exactly two actions when it installs the rule and one otherwise. Always returns `OFPET_BAD_REQUEST` |
| `Controller.PriorityCommand` | vehicular_network.cc:54-57 | Definition: the command text built for the priority rule. `Controller.PriorityCommandRoundTrip` gives its meaning |
| `Controller.PriorityCommandRoundTrip` | vehicular_network.cc:54-57 | The priority command text names exactly the packet's ingress port and the output port |
| `Controller.Decimal` | vehicular_network.cc:56-57 | Definition: the decimal digits `operator<<` writes for an unsigned port number: at least one digit, and digits only |
| `Controller.DecimalRoundTrip` | vehicular_network.cc:56-57 | The decimal text written for a port reads back as that port |
| `Placement.GetNearestRsu` | vehicular_network.cc:93-110 | If no RSU is closer than the largest double (in particular with no RSU), the result is 0. Otherwise it is a valid index at minimal distance, and every earlier index is strictly farther |
| `Placement.VehiclePosition` | vehicular_network.cc:232 | Definition: vehicle i stands at (i * carSpacing taken mod 2^32, 0, 0) |
| `Placement.PlaceVehicles` | vehicular_network.cc:231-233 | Vehicle i is placed at (i * carSpacing mod 2^32, 0, 0) |
| `Placement.VehiclesEvenlySpaced` | vehicular_network.cc:231-233 | Without wrap-around, consecutive vehicles stand `carSpacing` apart |
| `Placement.RsuSpacing` | vehicular_network.cc:254 | The spacing is the integer quotient of (numVehicles * carSpacing mod 2^32) by numRSUs + 1 |
| `Placement.RsuPosition` | vehicular_network.cc:257 | Definition: RSU i stands at ((i + 1) * spacing, 20, 0) |
| `Placement.PlaceRsus` | vehicular_network.cc:254-258 | RSU i is placed at ((i + 1) * spacing, 20, 0) |
| `Placement.DefaultLayout` | vehicular_network.cc:126-128 | With the defaults 50, 9 and 4 the spacing is 90, and the RSUs stand at x = 90 ... 360 |
| `Placement.RsusWithinRoad` | vehicular_network.cc:254-258 | Without wrap-around, the RSUs are evenly spaced from one spacing after the start. Each stands at least one spacing before the end of the vehicle row |
| `Placement.SwitchPosition` | vehicular_network.cc:270-274 | Definition: the switch stands 30 m above the last RSU, at the same x |
| `Placement.ControllerPosition` | vehicular_network.cc:276-280 | Definition: the controller stands 60 m above the last RSU, at the same x |
| `Placement.SwitchAndControllerAboveLastRsu` | vehicular_network.cc:270-280 | The switch and the controller stand in line with the last RSU, at y = 50 and y = 80 |

## Left out

- Sockets, addresses and setters (`SetLocal`, `SetRemote`, `SetSwitch`, `SetInterval`, the server's `StartApplication`, `Connect`, `Bind`, `Close`): this is transport I/O. Received datagrams are an input to `HandleRead`, and sends are appended to an outbox field.
- The server's `StopApplication` clears the receive callback and closes its socket. The model does not stop further `HandleRead` calls after a stop, because nothing in it delivers datagrams on its own.
- `GetCAMData` returns a copy of `m_camData`. That copy is the `camData` field itself, so the method has no separate member.
- `AssignVehiclesToClusters` is declared in cam.h but never defined, so there is nothing to model.
- `SetNumRSUs`: the model makes `m_numRSUs` a constructor parameter. In the source it is uninitialised until `SetNumRSUs` is called.
- `cv::kmeans` is a foreign library doing float numerics. Its labels and centres are inputs, with labels constrained to [0, 4).
- `CamServer.CamServer.PerformClustering`, `CamServer.CamServer.StopApplication` and `CamServer.StopAllRsus` assume a labelling exists for every row count. `cv::kmeans` (cam.h:249-254) throws when it gets fewer rows than clusters, which aborts the run. So for a store of 0 to 3 records, the model regroups, overwrites the store and sends, whereas the program aborts before doing any of these.
- `CamClient.CamClient.StartApplication`: restarting a stopped client reuses the socket that `StopApplication` closed. A new socket is created only when `m_socket` is null (cam.h:330, 346). The model assumes a closed socket can be reconnected, and it keeps recording sends after a restart. What ns-3 does with sends on a closed socket is not part of this model.
- The CSV files and all console and log output are I/O.
- The narrowing of doubles to float when `dataPoints` is filled and read back: field values are opaque here. A regrouped record keeps its position and speed bits and takes the server's node id.
- Padding bytes: `memcpy` copies whatever the struct's 4 padding bytes hold. The model writes zeros, and decoding ignores them.
- The speed `sqrt` and the mobility model that samples position and velocity: `SendCam` takes the sampled values as parameters.
- Simulator time and the send interval: only whether a send event is pending is kept. A second `StartApplication` without a stop would leave two send chains running: cam.h:337 overwrites `m_sendEvent`, and cam.h:342 cancels only the latest. The single pending flag merges them. So `CamClient.NoSendAfterStop` relies on ns-3 starting and stopping each application once.
- `Cam.CamData`: cam.h:24 declares the fourth field as `idz`, but cam.h:211, 235, 264, 291 and 363 use `.id`, so the source does not compile. The model reads every `.id` as that fourth field, the evidently intended 32-bit id.
- `GetPacketType` and the switch-control runtime (`DpctlExecute`, `SendPacket`): the EtherType is an input, and commands and forwards are returned as actions.
- `Controller.SdnController.HandshakeSuccessful`: the source builds `command` at line 32 and then passes an undeclared `command2` at line 35, which does not compile. The model issues `command`, the evidently intended single baseline command.
- `CamServer.Globals`: `numStoppedRSUs` is an unsigned 32-bit counter. The model uses an unbounded counter, because wrap-around would take 2^32 stops.
- `Placement.GetNearestRsu`: distances are given reals, so NaN distances are not modelled. The scan in `main` that computes each vehicle's distances and assigns its RSU is simulation wiring.
- `Placement.PlaceRsus`: the product `(i + 1) * rsuSpacing` is taken in double. It is modelled as exact, which it is for any product below 2^53.
- The rest of `main`: WiFi/CSMA helpers, the Internet stack, OFSwitch13 wiring, NetAnim, logging and `Simulator::Run` are configuration of external libraries.

# Vision-service clients: a Dafny model of their local logic

The repository wraps five image and vision microservices in client classes.
Each client builds a request, makes one remote call, checks the status code
in the response envelope, and unpacks the response. This model covers the
small amount of local logic in four of these clients:

- **Target detection** (`TargetDetection`, `target_detection.dfy`). The client
  keeps a label mapping table. It is built from the service's label list as
  `index -> label`. `convert_id_to_label` looks up an id in the table.
  `query_label_id` searches for the first id that carries a given label. The
  client also keeps a mutable allow-set of label ids (the `Filter`). It starts
  as `{0 .. n-1}`, and the client keeps only the detections whose label id
  passes it.
- **Target tracking** (`TargetTracking`, `target_tracking.dfy`). The client
  keeps an allow-set of label names that starts empty. It groups the bounding
  boxes of the passing tracked objects into a map keyed by object id. A later
  object with the same id overwrites an earlier one.
- **Image loader** (`ImageHarmony`, `image_harmony.dfy`). The connection id
  is a one-field state machine (0 means not connected). The buffer and size
  queries map a status other than 200 to sentinel tuples.
- **Service coordinator** (`ServiceCoordinator`, `service_coordinator.dfy`).
  It turns an argument dictionary into key/value entries and turns the
  response's entries back into a dictionary. Every outcome becomes a success
  flag.

`rpc.dfy` (module `Rpc`) holds the shared vocabulary. Each remote operation is
a parameter `call: Request -> Reply<Body>`: the service's answer to the request
the client sends. A `Reply` is either `Returned(code, message, body)` or
`RpcError(detail)`. The exceptions a client raises become
`Result.Failure(Error)`. The clients' state lives in classes: the two filters,
the detection client's table, and the image loader's connection id. Their
methods state the new state in terms of the old one. Pure reads and mappings
are functions. The loops of the source are methods with loop invariants, each
tied to a specification function whose properties are proved as lemmas.

Two points where the code is followed rather than the general description of
the repository:
- `connect_image_loader` does not check the status code. Any returned call
  stores the response's connection id and reports success (`ConnectStep`).
- `get_image_buffer_by_image_id` does not catch RPC errors. They reach its
  caller, modelled as `Failure(Transport(...))`. `get_image_size_by_image_id`
  and `get_image_by_image_id` catch every error.

## Model

| member | source | states |
|---|---|---|
| `Rpc.Raised` | target_detection/target_detection_client.py:202-218 | a failed call raises either the RPC error unchanged or an exception that carries the response's message and the endpoint's ip and port |
| `TargetDetection.IdRange` | target_detection/target_detection_client.py:27 | `range(n)`: exactly the ids 0 <= i < n, with n members (none when n <= 0) |
| `TargetDetection.DetectionFilter.constructor` | target_detection/target_detection_client.py:20-27 | a fresh filter accepts exactly the ids 0 <= id < label_cnt |
| `TargetDetection.DetectionFilter.Check` | target_detection/target_detection_client.py:54-64 | true exactly when the id is in the allow-set; reads only |
| `TargetDetection.DetectionFilter.Add` | target_detection/target_detection_client.py:29-36 | afterwards `Check(id)` holds, and every other id passes exactly as before (check is plain set membership) |
| `TargetDetection.DetectionFilter.Remove` | target_detection/target_detection_client.py:38-46 | afterwards `Check(id)` is false, every other id passes as before, and removing an absent id changes nothing and does not fail |
| `TargetDetection.DetectionFilter.Clear` | target_detection/target_detection_client.py:48-52 | afterwards no id passes |
| `TargetDetection.MappingTable` | target_detection/target_detection_client.py:181 | the table's keys are exactly 0 .. n-1 for n labels received, and key i holds the i-th label |
| `TargetDetection.FetchMappingTable` | target_detection/target_detection_client.py:160-186 | on status 200 the result is the enumerated table of the labels; any other status raises with the response's message; an RPC error is raised again |
| `TargetDetection.TargetDetectionClient.Init` | target_detection/target_detection_client.py:113-114 | the initial filter accepts exactly the keys of the fetched table |
| `TargetDetection.TargetDetectionClient.Create` | target_detection/target_detection_client.py:98-114 | construction succeeds exactly when the table fetch returns 200; the new client holds the enumerated table and a filter of ids 0 .. n-1; otherwise the fetch's exception escapes |
| `TargetDetection.TargetDetectionClient.GetResultMappingTable` | target_detection/target_detection_client.py:160-186 | a successful fetch replaces the table; a failing one raises and leaves the table as it was; the table stays an enumeration |
| `TargetDetection.ConvertIdToLabel` | target_detection/target_detection_client.py:116-136 | returns `table[id]` exactly when id is a key, and raises for any other id |
| `TargetDetection.QueryLabelId` | target_detection/target_detection_client.py:138-158 | returns the smallest (first inserted) id whose label matches, so converting that id gives the label back; no id with that label is smaller; raises exactly when no id has the label |
| `TargetDetection.PassingResults` | target_detection/target_detection_client.py:212-213 | a detection is kept exactly when it is in the response and its label id passes the filter; the result is no longer than the response |
| `TargetDetection.PassingResultsAppend` | target_detection/target_detection_client.py:212-213 | filtering keeps response order: filtering a concatenation gives the concatenation of the filtered parts |
| `TargetDetection.PassingResultsExtremes` | target_detection/target_detection_client.py:212-213 | when every detection passes, the whole response comes back unchanged; when none passes, the result is empty |
| `TargetDetection.TargetDetectionClient.GetResultByImageId` | target_detection/target_detection_client.py:188-218 | on status 200 returns the order-preserving subsequence of detections whose label id passes the filter, fields unchanged; raises on any other status or an RPC error |
| `TargetTracking.LabelFilter.constructor` | target_tracking/target_tracking_client.py:28-35 | a fresh filter is empty, so no label passes |
| `TargetTracking.LabelFilter.Check` | target_tracking/target_tracking_client.py:62-72 | true exactly when the label is in the allow-set; reads only |
| `TargetTracking.LabelFilter.Add` | target_tracking/target_tracking_client.py:37-44 | afterwards the label passes and every other label passes as before |
| `TargetTracking.LabelFilter.Remove` | target_tracking/target_tracking_client.py:46-54 | afterwards the label does not pass, other labels are unchanged, and removing an absent label changes nothing and does not fail |
| `TargetTracking.LabelFilter.Clear` | target_tracking/target_tracking_client.py:56-60 | afterwards no label passes |
| `TargetTracking.TargetTrackingClient.constructor` | target_tracking/target_tracking_client.py:87-102 | the client starts with an empty filter |
| `TargetTracking.Grouped` | target_tracking/target_tracking_client.py:137-149 | every key of the grouped map is the id of some result of the response |
| `TargetTracking.GroupedKeys` | target_tracking/target_tracking_client.py:137-141 | the map's keys are exactly the ids of the results whose label passes the filter |
| `TargetTracking.GroupedLastWins` | target_tracking/target_tracking_client.py:141-149 | each key holds the boxes, in response order, of the last passing result with that id; a later duplicate replaces an earlier one |
| `TargetTracking.EmptyFilterGivesEmptyMap` | target_tracking/target_tracking_client.py:137-141 | with an empty filter the map is empty |
| `TargetTracking.TargetTrackingClient.GetResultByImageId` | target_tracking/target_tracking_client.py:104-154 | the loop builds exactly the grouped map of the response's passing results; any status other than 200, or an RPC error, raises instead |
| `ImageHarmony.ImageHarmonyClient.constructor` | image_harmony/image_harmony_client.py:31 | the connection id is 0 after construction |
| `ImageHarmony.ConnectStep` | image_harmony/image_harmony_client.py:45-53 | when the call returns, whatever its status, the id becomes the response's connection id and the result is (True, message); an RPC error gives False and leaves the id unchanged |
| `ImageHarmony.DisconnectStep` | image_harmony/image_harmony_client.py:63-73 | with id 0 the result is (True, 'Not connected to image loader') and nothing changes; otherwise a returned call resets the id to 0 with (True, 'Disconnected from image loader'), and an RPC error gives False with the id unchanged |
| `ImageHarmony.SecondDisconnectIsNoop` | image_harmony/image_harmony_client.py:63-73 | a second disconnect after a successful one is the no-op case, whatever the service would answer |
| `ImageHarmony.ConnectThenDisconnect` | image_harmony/image_harmony_client.py:46-72 | connecting to a nonzero id and then disconnecting ends at id 0 when the disconnect call returns, and at the connected id when it fails |
| `ImageHarmony.ImageHarmonyClient.ConnectImageLoader` | image_harmony/image_harmony_client.py:34-53 | the new id and the returned pair are those of `ConnectStep`, given the loader-arguments hash |
| `ImageHarmony.ImageHarmonyClient.DisconnectImageLoader` | image_harmony/image_harmony_client.py:55-73 | the new id and the returned pair are those of `DisconnectStep` for the current id; with id 0 the client is unchanged |
| `ImageHarmony.ImageHarmonyClient.GetImageBufferByImageId` | image_harmony/image_harmony_client.py:75-113 | the request carries the current connection id; (0, empty) on a status other than 200, otherwise the response's image id and buffer; an RPC error propagates |
| `ImageHarmony.ImageHarmonyClient.GetImageByImageId` | image_harmony/image_harmony_client.py:115-148 | a failed fetch, a non-200 status or an empty buffer gives (0, no image); otherwise the image id with the result of decoding the buffer |
| `ImageHarmony.ImageHarmonyClient.GetImageSizeByImageId` | image_harmony/image_harmony_client.py:150-178 | the response's width and height on status 200; (0, 0) on any other status and on any error |
| `ServiceCoordinator.ArgsMap` | service_coordinator/service_coordinator_client.py:96-98 | the dictionary built from a list of entries has no more keys than there are entries |
| `ServiceCoordinator.ArgsMapKeys` | service_coordinator/service_coordinator_client.py:96-98 | the output dictionary's keys are exactly the keys that appear among the entries |
| `ServiceCoordinator.ArgsMapLastWins` | service_coordinator/service_coordinator_client.py:96-98 | each key holds the value of the last entry with that key |
| `ServiceCoordinator.ArgsRoundTrip` | service_coordinator/service_coordinator_client.py:47-51 | unmarshalling a listing of a dictionary gives back that dictionary |
| `ServiceCoordinator.MarshalArgs` | service_coordinator/service_coordinator_client.py:47-51 | the request's entries hold exactly one (key, value) entry per key of the input dictionary, and nothing else |
| `ServiceCoordinator.UnmarshalArgs` | service_coordinator/service_coordinator_client.py:96-98 | the loop builds the later-key-wins dictionary of the entries; its keys are exactly the entries' keys |
| `ServiceCoordinator.InformPreviousServiceInfo` | service_coordinator/service_coordinator_client.py:26-60 | the request sent carries the task and previous-service fields and a listing of args; the result is True exactly when the call returns with status 200 |
| `ServiceCoordinator.InformCurrentServiceInfo` | service_coordinator/service_coordinator_client.py:62-104 | True with the later-key-wins dictionary of the response's entries on status 200; (False, {}) on any other status or an RPC error |
| `ServiceCoordinator.Start` | service_coordinator/service_coordinator_client.py:106-126 | True exactly when the call returns with status 200; False on any other status and on any error |
| `ServiceCoordinator.Stop` | service_coordinator/service_coordinator_client.py:128-148 | True exactly when the call returns with status 200; False on any other status and on any error |

## Left out

- Channel and stub creation, and the `max_receive_message_length` option: foreign library calls. Each remote call is a `call` parameter giving the service's reply.
- All logging: side effects with no behaviour to state.
- Image decoding (`np.frombuffer`, `cv2.imdecode`): foreign code. `GetImageByImageId` takes the decoder as an opaque parameter.
- The image-renderer client (image_renderer/image_renderer_client.py) is not part of this model. It has no local state, and its only logic is the same status-to-sentinel mapping around a remote call.
- Floating-point values: box coordinates and confidences are only copied, so they are `real` fields that nothing computes on. NaN comparison is not modelled.
- `Result.__str__`: presentational formatting of floats.
- The exact text of the raised exceptions: the newline-joined message is kept as its parts (context, ip, port, response message).
- Python's mutable default arguments and the `isinstance(args, dict)` guard: in a typed model, args is always a dictionary. The default encoding `('.jpg', [IMWRITE_JPEG_QUALITY, 80])` is a pair of constants.
- ServiceCoordinator.MarshalArgs: Dafny maps have no iteration order, so the order of the entries is unconstrained. The source sends them in the dictionary's insertion order.
- Exceptions other than RPC errors in `inform_previous_service_info` and `inform_current_service_info`, such as a protobuf type error from a non-string value, cannot arise in the typed model.
- Status codes and ids are unbounded integers. Protobuf's fixed integer widths are not modelled.

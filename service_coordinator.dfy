/** The service-coordinator client: it passes string arguments to the
    coordinator as a list of key/value entries, turns the entries the
    coordinator sends back into a dictionary, and reports every outcome as a
    success flag. */
module ServiceCoordinator {
  import opened Rpc

  /** One key/value entry of a request's or response's args list. */
  datatype Arg = Arg(key: string, value: string)

  datatype PreviousServiceRequest = PreviousServiceRequest(
    taskId: string, preServiceName: string, preServiceIp: string, preServicePort: string, args: seq<Arg>)

  datatype CurrentServiceRequest = CurrentServiceRequest(taskId: string, args: seq<Arg>)

  /** The request of start and of stop. */
  datatype TaskRequest = TaskRequest(taskId: string)

  /** The entries list the dictionary: one entry per key, carrying that key's
      value, and nothing else. */
  ghost predicate Lists(entries: seq<Arg>, args: map<string, string>)
  {
    && (forall i :: 0 <= i < |entries| ==> entries[i].key in args && args[entries[i].key] == entries[i].value)
    && (forall i, j :: 0 <= i < j < |entries| ==> entries[i].key != entries[j].key)
    && (forall k :: k in args ==> exists i :: 0 <= i < |entries| && entries[i].key == k)
  }

  /** The dictionary the client builds from a list of entries, as it stands
      after the first |entries| of them: each entry assigns its value to its
      key, so a later entry replaces an earlier one with the same key. */
  function ArgsMap(entries: seq<Arg>): (m: map<string, string>)
    ensures |m| <= |entries|
  {
    if entries == [] then map[]
    else
      var last := entries[|entries| - 1];
      ArgsMap(entries[..|entries| - 1])[last.key := last.value]
  }

  /** The keys of the dictionary are exactly the keys of the entries. */
  lemma {:induction false} ArgsMapKeys(entries: seq<Arg>)
    ensures ArgsMap(entries).Keys == set i | 0 <= i < |entries| :: entries[i].key
    decreases |entries|
  {
    if entries != [] {
      var n := |entries| - 1;
      var init := entries[..n];
      ArgsMapKeys(init);
      forall i | 0 <= i < n
        ensures init[i] == entries[i]
      {
      }
      assert (set i | 0 <= i < |entries| :: entries[i].key)
          == (set i | 0 <= i < n :: init[i].key) + {entries[n].key};
    }
  }

  /** Each key holds the value of the LAST entry with that key. */
  lemma {:induction false} ArgsMapLastWins(entries: seq<Arg>, i: int)
    requires 0 <= i < |entries|
    requires forall j :: i < j < |entries| ==> entries[j].key != entries[i].key
    ensures entries[i].key in ArgsMap(entries) && ArgsMap(entries)[entries[i].key] == entries[i].value
    decreases |entries|
  {
    var n := |entries| - 1;
    if i < n {
      var init := entries[..n];
      assert init[i] == entries[i];
      forall j | i < j < n
        ensures init[j].key != init[i].key
      {
        assert init[j] == entries[j];
      }
      ArgsMapLastWins(init, i);
    }
  }

  /** Unmarshalling a listing of a dictionary gives that dictionary back. */
  lemma ArgsRoundTrip(entries: seq<Arg>, args: map<string, string>)
    requires Lists(entries, args)
    ensures ArgsMap(entries) == args
  {
    ArgsMapKeys(entries);
    var m := ArgsMap(entries);
    forall k | k in args
      ensures k in m && m[k] == args[k]
    {
      var i :| 0 <= i < |entries| && entries[i].key == k;
      ArgsMapLastWins(entries, i);
    }
  }

  /** The loop that copies a dictionary into a request's args list: one
      entry per key. */
  method MarshalArgs(args: map<string, string>) returns (entries: seq<Arg>)
    ensures Lists(entries, args)
    ensures |entries| == |args|
    ensures ArgsMap(entries) == args
  {
    entries := [];
    var rest := args.Keys;
    while rest != {}
      invariant rest <= args.Keys
      invariant forall i :: 0 <= i < |entries| ==> entries[i].key in args && entries[i].key !in rest
                                                   && args[entries[i].key] == entries[i].value
      invariant forall i, j :: 0 <= i < j < |entries| ==> entries[i].key != entries[j].key
      invariant forall k :: k in args && k !in rest ==> exists i :: 0 <= i < |entries| && entries[i].key == k
      invariant |entries| + |rest| == |args.Keys|
      decreases rest
    {
      var k :| k in rest;
      ghost var done := entries;
      entries := entries + [Arg(k, args[k])];
      rest := rest - {k};
      forall key | key in args && key !in rest
        ensures exists i :: 0 <= i < |entries| && entries[i].key == key
      {
        if key == k {
          assert entries[|done|].key == key;
        } else {
          var i :| 0 <= i < |done| && done[i].key == key;
          assert entries[i] == done[i];
        }
      }
    }
    ArgsRoundTrip(entries, args);
  }

  /** The loop that copies a response's args list into a dictionary. */
  method UnmarshalArgs(entries: seq<Arg>) returns (output: map<string, string>)
    ensures output == ArgsMap(entries)
    ensures output.Keys == set i | 0 <= i < |entries| :: entries[i].key
  {
    output := map[];
    for i := 0 to |entries|
      invariant output == ArgsMap(entries[..i])
    {
      assert entries[..i + 1][..i] == entries[..i];
      output := output[entries[i].key := entries[i].value];
    }
    assert entries[..|entries|] == entries;
    ArgsMapKeys(entries);
  }

  /** inform_previous_service_info: true exactly when the call returns with
      status 200; any other status and an RPC error give false. */
  method InformPreviousServiceInfo(
    taskId: string, preServiceName: string, preServiceIp: string, preServicePort: string,
    args: map<string, string>, call: PreviousServiceRequest -> Reply<()>)
    returns (ok: bool, ghost sent: PreviousServiceRequest)
    ensures sent.taskId == taskId && sent.preServiceName == preServiceName
    ensures sent.preServiceIp == preServiceIp && sent.preServicePort == preServicePort
    ensures Lists(sent.args, args)
    ensures ok <==> Succeeded(call(sent))
  {
    var entries := MarshalArgs(args);
    var request := PreviousServiceRequest(taskId, preServiceName, preServiceIp, preServicePort, entries);
    sent := request;
    var reply := call(request);
    ok := Succeeded(reply);
  }

  /** inform_current_service_info: on status 200, true and the dictionary of
      the response's entries; otherwise, and on an RPC error, false and an
      empty dictionary. */
  method InformCurrentServiceInfo(taskId: string, args: map<string, string>, call: CurrentServiceRequest -> Reply<seq<Arg>>)
    returns (ok: bool, output: map<string, string>, ghost sent: CurrentServiceRequest)
    ensures sent.taskId == taskId && Lists(sent.args, args)
    ensures ok <==> Succeeded(call(sent))
    ensures ok ==> output == ArgsMap(call(sent).body)
    ensures !ok ==> output == map[]
  {
    var entries := MarshalArgs(args);
    var request := CurrentServiceRequest(taskId, entries);
    sent := request;
    var reply := call(request);
    if !Succeeded(reply) {
      return false, map[], sent;
    }
    output := UnmarshalArgs(reply.body);
    ok := true;
  }

  /** start: true exactly when the call returns with status 200. */
  function Start(taskId: string, call: TaskRequest -> Reply<()>): (ok: bool)
    ensures ok <==> call(TaskRequest(taskId)).Returned? && call(TaskRequest(taskId)).code == OK
  {
    Succeeded(call(TaskRequest(taskId)))
  }

  /** stop: true exactly when the call returns with status 200. */
  function Stop(taskId: string, call: TaskRequest -> Reply<()>): (ok: bool)
    ensures ok <==> call(TaskRequest(taskId)).Returned? && call(TaskRequest(taskId)).code == OK
  {
    Succeeded(call(TaskRequest(taskId)))
  }
}

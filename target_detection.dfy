/** The target-detection client: a label mapping table fetched from the
    service, an allow-set of label ids, and the filtering of the detections
    the service reports for an image. */
module TargetDetection {
  import opened Rpc

  /** One detection: the label id, the bounding box corners and the
      confidence. The coordinates are only copied, never computed on. */
  datatype Detection = Detection(labelId: int, x1: real, y1: real, x2: real, y2: real, confidence: real)

  /** The request for the detections of one image; the client always asks
      the service to wait for them. */
  datatype ResultRequest = ResultRequest(taskId: int, imageId: int, wait: bool)

  /** The ids 0 .. n - 1, that is Python's range(n); empty when n <= 0. */
  function IdRange(n: int): (s: set<int>)
    ensures forall i :: i in s <==> 0 <= i < n
    ensures |s| == if n <= 0 then 0 else n
    decreases n
  {
    if n <= 0 then {} else IdRange(n - 1) + {n - 1}
  }

  /** A table whose keys are exactly 0 .. |t| - 1, as building it with
      enumerate makes it. */
  predicate IsEnumeration(t: map<int, string>)
  {
    t.Keys == IdRange(|t|)
  }

  /** The mapping table built from the label list of the response: label i
      under key i. */
  function MappingTable(labels: seq<string>): (t: map<int, string>)
    ensures t.Keys == IdRange(|labels|)
    ensures |t| == |labels| && IsEnumeration(t)
    ensures forall i :: 0 <= i < |labels| ==> t[i] == labels[i]
  {
    var t := map i | 0 <= i < |labels| :: labels[i];
    assert t.Keys == IdRange(|labels|);
    t
  }

  /** The outcome of fetching the mapping table: the table built from the
      labels on status 200; otherwise the exception, an RPC error passed on or
      a StatusError naming the endpoint. */
  function FetchMappingTable(ip: string, port: string, reply: Reply<seq<string>>): (r: Result<map<int, string>>)
    ensures r.Success? <==> Succeeded(reply)
    ensures r.Success? ==> IsEnumeration(r.value) && |r.value| == |reply.body|
                           && forall i :: 0 <= i < |reply.body| ==> r.value[i] == reply.body[i]
    ensures reply.RpcError? ==> r == Failure(Transport(reply.detail))
    ensures reply.Returned? && reply.code != OK ==> r.Failure? && r.error.StatusError? && r.error.message == reply.message
  {
    if Succeeded(reply) then Success(MappingTable(reply.body))
    else Failure(Raised("TargetDetectionClient Error: Failed to get result mapping table", ip, port, reply))
  }

  /** convert_id_to_label: the label stored under the id, or the exception
      raised when the id is not a key of the table. */
  function ConvertIdToLabel(table: map<int, string>, labelId: int): (r: Result<string>)
    ensures r.Success? <==> labelId in table
    ensures r.Success? ==> r.value == table[labelId]
    ensures r.Failure? ==> r.error == UnknownLabelId(labelId)
  {
    if labelId in table then Success(table[labelId]) else Failure(UnknownLabelId(labelId))
  }

  /** query_label_id: walks the table in key order (its insertion order) and
      returns the first id whose label equals the one asked for; raises when
      no label does. */
  method QueryLabelId(table: map<int, string>, name: string) returns (r: Result<int>)
    requires IsEnumeration(table)
    ensures r.Success? ==> ConvertIdToLabel(table, r.value) == Success(name)
    ensures r.Success? ==> forall id :: id in table && id < r.value ==> table[id] != name
    ensures forall id :: ConvertIdToLabel(table, id) == Success(name) ==> r.Success? && r.value <= id
    ensures r.Failure? ==> r.error == UnknownLabel(name)
  {
    var k := 0;
    while k < |table|
      invariant 0 <= k <= |table|
      invariant forall id :: id in table && id < k ==> table[id] != name
    {
      if table[k] == name {
        return Success(k);
      }
      k := k + 1;
    }
    return Failure(UnknownLabel(name));
  }

  /** The detections of rs whose label id is in the allow-set, in their
      order, each copied unchanged. */
  function PassingResults(allowed: set<int>, rs: seq<Detection>): (out: seq<Detection>)
    ensures |out| <= |rs|
    ensures forall d :: d in out <==> d in rs && d.labelId in allowed
  {
    if rs == [] then []
    else (if rs[0].labelId in allowed then [rs[0]] else []) + PassingResults(allowed, rs[1..])
  }

  /** Filtering keeps the order of the response: filtering a concatenation
      is the concatenation of the filtered parts. */
  lemma {:induction false} PassingResultsAppend(allowed: set<int>, a: seq<Detection>, b: seq<Detection>)
    ensures PassingResults(allowed, a + b) == PassingResults(allowed, a) + PassingResults(allowed, b)
    decreases |a|
  {
    if a == [] {
      assert a + b == b;
    } else {
      assert (a + b)[1..] == a[1..] + b;
      PassingResultsAppend(allowed, a[1..], b);
    }
  }

  /** When every detection passes, the result is the whole response; when
      none does, it is empty. */
  lemma {:induction false} PassingResultsExtremes(allowed: set<int>, rs: seq<Detection>)
    ensures (forall i :: 0 <= i < |rs| ==> rs[i].labelId in allowed) ==> PassingResults(allowed, rs) == rs
    ensures (forall i :: 0 <= i < |rs| ==> rs[i].labelId !in allowed) ==> PassingResults(allowed, rs) == []
  {
    if rs != [] {
      PassingResultsExtremes(allowed, rs[1..]);
    }
  }

  /** The allow-set of label ids. */
  class DetectionFilter {
    var allowed: set<int>

    /** Every id 0 .. labelCnt - 1 passes at first. */
    constructor (labelCnt: int)
      ensures allowed == IdRange(labelCnt)
      ensures forall id :: Check(id) <==> 0 <= id < labelCnt
    {
      allowed := IdRange(labelCnt);
    }

    /** Whether a label id passes: plain membership. */
    predicate Check(labelId: int): (passes: bool)
      reads this
      ensures passes <==> labelId in allowed
    {
      labelId in allowed
    }

    method Add(labelId: int)
      modifies this
      ensures allowed == old(allowed) + {labelId}
      ensures Check(labelId)
      ensures forall id :: id != labelId ==> Check(id) == old(Check(id))
    {
      allowed := allowed + {labelId};
    }

    /** Removing an id that is not there changes nothing and is no error. */
    method Remove(labelId: int)
      modifies this
      ensures allowed == old(allowed) - {labelId}
      ensures !Check(labelId)
      ensures forall id :: id != labelId ==> Check(id) == old(Check(id))
      ensures !old(Check(labelId)) ==> allowed == old(allowed)
    {
      if labelId in allowed {
        allowed := allowed - {labelId};
      }
    }

    method Clear()
      modifies this
      ensures allowed == {}
      ensures forall id :: !Check(id)
    {
      allowed := {};
    }
  }

  class TargetDetectionClient {
    const ip: string
    const port: string
    const taskId: int
    var table: map<int, string>
    const filter: DetectionFilter

    /** The table always has the keys 0 .. |table| - 1. */
    ghost predicate Valid()
      reads this
    {
      IsEnumeration(table)
    }

    /** The part of __init__ after the table has been fetched: the filter
        starts with one id per entry of the table. */
    constructor Init(ip: string, port: string, taskId: int, table: map<int, string>)
      requires IsEnumeration(table)
      ensures Valid()
      ensures this.ip == ip && this.port == port && this.taskId == taskId && this.table == table
      ensures fresh(filter) && filter.allowed == table.Keys
    {
      this.ip, this.port, this.taskId := ip, port, taskId;
      this.table := table;
      filter := new DetectionFilter(|table|);
    }

    /** __init__: fetch the mapping table for the task, then build the
        filter from its size; the exception of the fetch escapes from the
        constructor. */
    static method Create(ip: string, port: string, taskId: int, call: int -> Reply<seq<string>>)
      returns (r: Result<TargetDetectionClient>)
      ensures r.Success? <==> Succeeded(call(taskId))
      ensures r.Failure? ==> r == Failure(FetchMappingTable(ip, port, call(taskId)).error)
      ensures r.Success? ==> fresh(r.value) && fresh(r.value.filter) && r.value.Valid()
      ensures r.Success? ==> r.value.table == MappingTable(call(taskId).body)
      ensures r.Success? ==> r.value.filter.allowed == IdRange(|call(taskId).body|)
    {
      var fetched := FetchMappingTable(ip, port, call(taskId));
      if fetched.Failure? {
        return Failure(fetched.error);
      }
      var c := new TargetDetectionClient.Init(ip, port, taskId, fetched.value);
      r := Success(c);
    }

    /** get_result_mapping_table: replaces the table on success and leaves it
        as it was when the call fails; the filter is not touched. */
    method GetResultMappingTable(call: int -> Reply<seq<string>>) returns (r: Result<map<int, string>>)
      requires Valid()
      modifies this
      ensures Valid()
      ensures r == FetchMappingTable(ip, port, call(taskId))
      ensures table == if r.Success? then r.value else old(table)
    {
      r := FetchMappingTable(ip, port, call(taskId));
      if r.Success? {
        table := r.value;
      }
    }

    /** get_result_by_image_id: the detections of the response that pass the
        filter, in response order; the exception on a status other than 200
        or an RPC error. */
    function GetResultByImageId(imageId: int, call: ResultRequest -> Reply<seq<Detection>>): (r: Result<seq<Detection>>)
      reads this, filter
      ensures r.Success? <==> Succeeded(call(ResultRequest(taskId, imageId, true)))
      ensures r.Success? ==> forall d :: d in r.value <==> d in call(ResultRequest(taskId, imageId, true)).body && filter.Check(d.labelId)
      ensures r.Success? ==> r.value == PassingResults(filter.allowed, call(ResultRequest(taskId, imageId, true)).body)
      ensures r.Failure? ==> r.error == Raised("TargetDetectionClient Error: Failed to get result", ip, port, call(ResultRequest(taskId, imageId, true)))
    {
      var reply := call(ResultRequest(taskId, imageId, true));
      if Succeeded(reply) then Success(PassingResults(filter.allowed, reply.body))
      else Failure(Raised("TargetDetectionClient Error: Failed to get result", ip, port, reply))
    }
  }
}

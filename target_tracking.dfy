/** The target-tracking client: an allow-set of label names and the grouping
    of the tracked objects the service reports for an image into a map from
    object id to bounding boxes. */
module TargetTracking {
  import opened Rpc

  /** A bounding box; its coordinates are only copied, never computed on. */
  datatype BBox = BBox(x1: real, y1: real, x2: real, y2: real)

  /** One tracked object of the response: its id, its label name and its boxes. */
  datatype Tracked = Tracked(id: int, name: string, bboxes: seq<BBox>)

  /** The request for the tracking result of one image; the client always
      asks the service to wait for it. */
  datatype ResultRequest = ResultRequest(taskId: int, imageId: int, wait: bool, onlyTheLatest: bool)

  /** The map the client builds from the response, as it stands after the
      first |rs| results: each passing result assigns its boxes to its id,
      so a later result with the same id replaces an earlier one. */
  function Grouped(allowed: set<string>, rs: seq<Tracked>): (m: map<int, seq<BBox>>)
    ensures m.Keys <= set t | t in rs :: t.id
  {
    if rs == [] then map[]
    else
      var m := Grouped(allowed, rs[..|rs| - 1]);
      var last := rs[|rs| - 1];
      if last.name in allowed then m[last.id := last.bboxes] else m
  }

  /** The ids of the passing results. */
  ghost function PassingIds(allowed: set<string>, rs: seq<Tracked>): set<int>
  {
    set i | 0 <= i < |rs| && rs[i].name in allowed :: rs[i].id
  }

  /** The keys of the map are exactly the ids of the results whose label
      passes the filter. */
  lemma {:induction false} GroupedKeys(allowed: set<string>, rs: seq<Tracked>)
    ensures Grouped(allowed, rs).Keys == PassingIds(allowed, rs)
    decreases |rs|
  {
    if rs != [] {
      var n := |rs| - 1;
      var init := rs[..n];
      GroupedKeys(allowed, init);
      forall i | 0 <= i < n
        ensures init[i] == rs[i]
      {
      }
      if rs[n].name in allowed {
        assert PassingIds(allowed, rs) == PassingIds(allowed, init) + {rs[n].id};
      } else {
        assert PassingIds(allowed, rs) == PassingIds(allowed, init);
      }
    }
  }

  /** Each key holds the boxes of the LAST passing result with that id. */
  lemma {:induction false} GroupedLastWins(allowed: set<string>, rs: seq<Tracked>, id: int)
    requires id in Grouped(allowed, rs)
    ensures exists i :: 0 <= i < |rs| && rs[i].id == id && rs[i].name in allowed
                        && Grouped(allowed, rs)[id] == rs[i].bboxes
                        && forall j :: i < j < |rs| && rs[j].id == id ==> rs[j].name !in allowed
    decreases |rs|
  {
    var n := |rs| - 1;
    var init := rs[..n];
    if rs[n].name in allowed && rs[n].id == id {
      assert rs[n].id == id && rs[n].name in allowed && Grouped(allowed, rs)[id] == rs[n].bboxes;
    } else {
      assert id in Grouped(allowed, init);
      GroupedLastWins(allowed, init, id);
      var i :| 0 <= i < n && init[i].id == id && init[i].name in allowed
               && Grouped(allowed, init)[id] == init[i].bboxes
               && forall j :: i < j < n && init[j].id == id ==> init[j].name !in allowed;
      assert rs[i] == init[i];
      forall j | i < j < |rs| && rs[j].id == id
        ensures rs[j].name !in allowed
      {
        if j < n {
          assert rs[j] == init[j];
        }
      }
    }
  }

  /** With an empty filter nothing passes and the map is empty. */
  lemma {:induction false} EmptyFilterGivesEmptyMap(rs: seq<Tracked>)
    ensures Grouped({}, rs) == map[]
  {
    GroupedKeys({}, rs);
  }

  /** The allow-set of label names. */
  class LabelFilter {
    var allowed: set<string>

    /** No label passes at first. */
    constructor ()
      ensures allowed == {}
      ensures forall name :: !Check(name)
    {
      allowed := {};
    }

    /** Whether a label passes: plain membership. */
    predicate Check(name: string): (passes: bool)
      reads this
      ensures passes <==> name in allowed
    {
      name in allowed
    }

    method Add(name: string)
      modifies this
      ensures allowed == old(allowed) + {name}
      ensures Check(name)
      ensures forall other :: other != name ==> Check(other) == old(Check(other))
    {
      allowed := allowed + {name};
    }

    /** Removing a label that is not there changes nothing and is no error. */
    method Remove(name: string)
      modifies this
      ensures allowed == old(allowed) - {name}
      ensures !Check(name)
      ensures forall other :: other != name ==> Check(other) == old(Check(other))
      ensures !old(Check(name)) ==> allowed == old(allowed)
    {
      if name in allowed {
        allowed := allowed - {name};
      }
    }

    method Clear()
      modifies this
      ensures allowed == {}
      ensures forall name :: !Check(name)
    {
      allowed := {};
    }
  }

  class TargetTrackingClient {
    const ip: string
    const port: string
    const taskId: int
    const filter: LabelFilter

    constructor (ip: string, port: string, taskId: int)
      ensures this.ip == ip && this.port == port && this.taskId == taskId
      ensures fresh(filter) && filter.allowed == {}
    {
      this.ip, this.port, this.taskId := ip, port, taskId;
      filter := new LabelFilter();
    }

    /** get_result_by_image_id: on status 200, the map from the id of each
        passing result to its boxes, later results winning; the exception on
        any other status or an RPC error. */
    method GetResultByImageId(imageId: int, onlyTheLast: bool, call: ResultRequest -> Reply<seq<Tracked>>)
      returns (r: Result<map<int, seq<BBox>>>)
      ensures r.Success? <==> Succeeded(call(ResultRequest(taskId, imageId, true, onlyTheLast)))
      ensures r.Success? ==> r.value == Grouped(filter.allowed, call(ResultRequest(taskId, imageId, true, onlyTheLast)).body)
      ensures r.Failure? ==> r.error == Raised("TargetTrackingClient Error: Failed to get result", ip, port,
                                              call(ResultRequest(taskId, imageId, true, onlyTheLast)))
    {
      var reply := call(ResultRequest(taskId, imageId, true, onlyTheLast));
      if !Succeeded(reply) {
        return Failure(Raised("TargetTrackingClient Error: Failed to get result", ip, port, reply));
      }
      var rs := reply.body;
      var results: map<int, seq<BBox>> := map[];
      for i := 0 to |rs|
        invariant results == Grouped(filter.allowed, rs[..i])
      {
        assert rs[..i + 1][..i] == rs[..i];
        var result := rs[i];
        if !filter.Check(result.name) {
          continue;
        }
        ghost var before := results;
        results := results[result.id := []];
        for j := 0 to |result.bboxes|
          invariant results == before[result.id := result.bboxes[..j]]
        {
          var b := result.bboxes[j];
          assert result.bboxes[..j + 1] == result.bboxes[..j] + [b];
          results := results[result.id := results[result.id] + [BBox(b.x1, b.y1, b.x2, b.y2)]];
        }
        assert result.bboxes[..|result.bboxes|] == result.bboxes;
      }
      assert rs[..|rs|] == rs;
      return Success(results);
    }
  }
}

/** The in-memory view counter of api/LMserver.js: a process-wide table from
    product id to view count, read by `get_metafield` and incremented by
    `update_metafield`. The table is volatile (lost on restart) and is a
    stand-in for the upstream metafield.
 */
module ViewCounter {
  import opened JsValues

  datatype ApiError = MissingProductGid | InvalidAction

  /** `{ success: true, totalViews }` or `{ success: false, error }`. */
  datatype ApiReply = Counted(totalViews: nat) | Rejected(error: ApiError)
  {
    /** A count is sent with the default 200; every rejection with 400. */
    function Status(): (s: nat)
      ensures s == 200 <==> Counted?
      ensures s == 400 <==> Rejected?
    {
      if Counted? then 200 else 400
    }
  }

  /** What the handler decides to do with a request before touching the table. */
  datatype ApiCommand = Reject(error: ApiError) | Get(gid: string) | Increment(gid: string)

  /** `productViews[gid] || 0`: the stored count, or 0 when there is none. */
  function Lookup(views: map<string, nat>, gid: string): (n: nat)
    ensures gid in views ==> n == views[gid]
    ensures gid !in views ==> n == 0
  {
    if gid in views then views[gid] else 0
  }

  /** The handler's chain of checks: productGid first, then the two known
      actions; totalViews is never consulted. */
  function Classify(body: RequestBody): (c: ApiCommand)
    ensures !Present(body.productGid) ==> c == Reject(MissingProductGid)
    ensures c.Get? <==> Present(body.productGid) && body.action == Str(GetAction)
    ensures c.Increment? <==> Present(body.productGid) && body.action == Str(UpdateAction)
    ensures !c.Reject? ==> c.gid == body.productGid.value
    ensures c == Reject(InvalidAction) <==>
              Present(body.productGid) && body.action != Str(GetAction) && body.action != Str(UpdateAction)
  {
    if !Present(body.productGid) then Reject(MissingProductGid)
    else if body.action == Str(GetAction) then Get(body.productGid.value)
    else if body.action == Str(UpdateAction) then Increment(body.productGid.value)
    else Reject(InvalidAction)
  }

  /** The table after a command: only an increment changes it, and then only
      at its own key, which afterwards holds one more than before. */
  function Applied(views: map<string, nat>, c: ApiCommand): (v: map<string, nat>)
    ensures !c.Increment? ==> v == views
    ensures c.Increment? ==> v.Keys == views.Keys + {c.gid}
    ensures c.Increment? ==> v[c.gid] == Lookup(views, c.gid) + 1
    ensures c.Increment? ==> forall k :: k in views && k != c.gid ==> v[k] == views[k]
  {
    if c.Increment? then views[c.gid := Lookup(views, c.gid) + 1] else views
  }

  /** The reply to a command issued against `views`: a get reports the stored
      count, an increment reports the count it stored. */
  function Answered(views: map<string, nat>, c: ApiCommand): (r: ApiReply)
    ensures c.Reject? ==> r == Rejected(c.error) && r.Status() == 400
    ensures c.Get? ==> r == Counted(Lookup(views, c.gid))
    ensures c.Increment? ==> r == Counted(Applied(views, c)[c.gid])
    ensures r.Status() == 200 <==> !c.Reject?
  {
    match c
    case Reject(e) => Rejected(e)
    case Get(gid) => Counted(Lookup(views, gid))
    case Increment(gid) => Counted(Lookup(views, gid) + 1)
  }

  /** The table after handling each of `bodies` in turn. */
  function Replay(views: map<string, nat>, bodies: seq<RequestBody>): map<string, nat>
  {
    if bodies == [] then views
    else Applied(Replay(views, bodies[..|bodies| - 1]), Classify(bodies[|bodies| - 1]))
  }

  /** A request naming product `gid` with action update_metafield, whatever
      its totalViews. */
  predicate IsUpdateOf(body: RequestBody, gid: string)
  {
    body.action == Str(UpdateAction) && body.productGid == Some(gid)
  }

  /** The `productViews` table and the POST handler that reads and updates it. */
  class ViewTable {
    var views: map<string, nat>

    /** The module starts with an empty table. */
    constructor ()
      ensures views == map[]
    {
      views := map[];
    }

    /** The POST handler: validate, then get or increment. */
    method Handle(body: RequestBody) returns (reply: ApiReply)
      modifies this
      ensures views == Applied(old(views), Classify(body))
      ensures reply == Answered(old(views), Classify(body))
    {
      if !Present(body.productGid) {
        return Rejected(MissingProductGid);
      }
      var gid := body.productGid.value;
      if body.action == Str(GetAction) {
        var totalViews := if gid in views then views[gid] else 0;
        return Counted(totalViews);
      }
      if body.action == Str(UpdateAction) {
        views := views[gid := (if gid in views then views[gid] else 0) + 1];
        return Counted(views[gid]);
      }
      reply := Rejected(InvalidAction);
    }
  }

  /** A missing or empty productGid is refused with 400 and the table kept,
      whatever the action: the productGid check comes before the action check. */
  lemma MissingProductGidRefused(views: map<string, nat>, body: RequestBody)
    requires !Present(body.productGid)
    ensures Answered(views, Classify(body)) == Rejected(MissingProductGid)
    ensures Answered(views, Classify(body)).Status() == 400
    ensures Applied(views, Classify(body)) == views
  {
  }

  /** A get reports exactly the stored count (0 for a product never counted)
      and neither changes the table nor creates an entry. */
  lemma GetReportsStoredCount(views: map<string, nat>, body: RequestBody, gid: string)
    requires body.action == Str(GetAction) && body.productGid == Some(gid) && gid != ""
    ensures Applied(views, Classify(body)) == views
    ensures gid in views ==> Answered(views, Classify(body)) == Counted(views[gid])
    ensures gid !in views ==> Answered(views, Classify(body)) == Counted(0)
    ensures gid !in views ==> gid !in Applied(views, Classify(body))
  {
  }

  /** An unknown action with a productGid is refused with 400 and the table kept. */
  lemma UnknownActionRefused(views: map<string, nat>, body: RequestBody)
    requires Present(body.productGid)
    requires body.action != Str(GetAction) && body.action != Str(UpdateAction)
    ensures Answered(views, Classify(body)) == Rejected(InvalidAction)
    ensures Applied(views, Classify(body)) == views
  {
  }

  /** n updates of one product add n to its count and leave every other
      product's entry as it was; the bodies' totalViews play no part. */
  lemma {:induction false} ReplayUpdates(views: map<string, nat>, bodies: seq<RequestBody>, gid: string)
    requires gid != ""
    requires forall i :: 0 <= i < |bodies| ==> IsUpdateOf(bodies[i], gid)
    ensures Lookup(Replay(views, bodies), gid) == Lookup(views, gid) + |bodies|
    ensures forall k :: k != gid ==> Lookup(Replay(views, bodies), k) == Lookup(views, k)
  {
    if bodies != [] {
      var prefix := bodies[..|bodies| - 1];
      assert forall i :: 0 <= i < |prefix| ==> prefix[i] == bodies[i];
      ReplayUpdates(views, prefix, gid);
      assert Classify(bodies[|bodies| - 1]) == Increment(gid);
    }
  }

  /** From the empty table, n updates of a product followed by a get of it
      report n. */
  lemma CountAfterUpdates(bodies: seq<RequestBody>, gid: string, get: RequestBody)
    requires gid != ""
    requires forall i :: 0 <= i < |bodies| ==> IsUpdateOf(bodies[i], gid)
    requires get.action == Str(GetAction) && get.productGid == Some(gid)
    ensures Answered(Replay(map[], bodies), Classify(get)) == Counted(|bodies|)
  {
    ReplayUpdates(map[], bodies, gid);
  }

  /** A fresh table that handles two updates and then a get reports 2. */
  method TwoUpdatesThenGet(gid: string, tv1: JsValue, tv2: JsValue) returns (reply: ApiReply)
    requires gid != ""
    ensures reply == Counted(2)
  {
    var table := new ViewTable();
    var _ := table.Handle(RequestBody(Str(UpdateAction), Some(gid), tv1));
    var _ := table.Handle(RequestBody(Str(UpdateAction), Some(gid), tv2));
    reply := table.Handle(RequestBody(Str(GetAction), Some(gid), Undefined));
  }
}

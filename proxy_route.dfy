/** The App Proxy route of LMserver.js: an ordered chain of early-return
    checks on the POST body, a dispatch on the action to one upstream GraphQL
    call (read the product's total_views metafield, or set it), and the
    translation of the upstream reply into the response. The upstream reply is
    an input of the model, not fetched.
 */
module ProxyRoute {
  import opened JsValues

  /** Every product id the route accepts starts with this. */
  const ProductGidPrefix := "gid://shopify/Product/"

  /** The metafield both paths address. */
  const MetafieldNamespace := "custom"
  const MetafieldKey := "total_views"
  const MetafieldType := "list.number_integer"

  datatype ProxyError =
    | ActionMissing        // `!action`
    | ProductGidInvalid    // absent, empty or without the product prefix
    | TotalViewsMissing    // update with a falsy totalViews
    | ActionInvalid        // neither get_metafield nor update_metafield
    | MetafieldNotFound    // read reply without data.product.metafield
    | UpdateFailed         // write reply carrying `errors`
    | ShopifyCallFailed    // an exception inside the try block

  /** The status each error is answered with: client errors 400, a missing
      metafield 404, upstream and exception failures 500. */
  function ErrorStatus(e: ProxyError): (s: nat)
    ensures s == 400 <==> e in {ActionMissing, ProductGidInvalid, TotalViewsMissing, ActionInvalid}
    ensures s == 404 <==> e == MetafieldNotFound
    ensures s == 500 <==> e in {UpdateFailed, ShopifyCallFailed}
  {
    match e
    case ActionMissing => 400
    case ProductGidInvalid => 400
    case TotalViewsMissing => 400
    case ActionInvalid => 400
    case MetafieldNotFound => 404
    case UpdateFailed => 500
    case ShopifyCallFailed => 500
  }

  /** `{ success: true, totalViews }` with status 200, or `{ error }`. */
  datatype Response = Success(totalViews: JsValue) | Failure(error: ProxyError)
  {
    /** A success goes out with `res.json`'s default 200; a failure with its
        error's status. */
    function Status(): (s: nat)
      ensures s == 200 <==> Success?
      ensures Failure? ==> s == ErrorStatus(error)
    {
      if Success? then 200 else ErrorStatus(error)
    }
  }

  /** One element of the `metafields` variable of the metafieldsSet mutation. */
  datatype MetafieldsSetInput = MetafieldsSetInput(
    ownerId: string, namespace: string, key: string, valueType: string, value: string)

  /** The one upstream call a request can cause. */
  datatype UpstreamCall = ProductMetafieldQuery(productGid: string) | MetafieldsSet(input: MetafieldsSetInput)

  /** The parsed GraphQL reply. `TransportFailed` stands for fetch or
      `response.json()` throwing; otherwise `errors` says whether the top-level
      `errors` member is truthy, and `data` is the `data` member if any. */
  datatype GraphQLReply = TransportFailed | Reply(errors: bool, data: Option<ReplyData>)
  datatype ReplyData = ReplyData(product: Option<ProductNode>, metafieldsSet: Option<MetafieldsSetPayload>)
  datatype ProductNode = ProductNode(metafield: Option<MetafieldNode>)
  /** A metafield object; its value is None when it is null. */
  datatype MetafieldNode = MetafieldNode(value: Option<string>)
  datatype MetafieldsSetPayload = MetafieldsSetPayload(userErrors: seq<UserError>)
  datatype UserError = UserError(field: seq<string>, message: string)

  /** What the validation chain decides: answer at once, or make one call. */
  datatype Plan = Refuse(error: ProxyError) | Call(call: UpstreamCall)

  /** The route's outcome: the upstream call it made, if any, and the response. */
  datatype Outcome = Outcome(call: Option<UpstreamCall>, response: Response)

  /** `productGid && productGid.startsWith("gid://shopify/Product/")`. */
  predicate HasProductPrefix(gid: Option<string>): (t: bool)
    ensures t <==> gid.Some? && exists rest :: gid.value == ProductGidPrefix + rest
  {
    Present(gid) && StartsWith(gid.value, ProductGidPrefix)
  }

  /** The mutation input for setting the counter of `gid` to `totalViews`:
      the value is `${totalViews}`, declared as a list of integers. */
  function SetInput(gid: string, totalViews: JsValue): (m: MetafieldsSetInput)
    ensures m.ownerId == gid && m.namespace == MetafieldNamespace && m.key == MetafieldKey
    ensures m.valueType == MetafieldType
    ensures m.value == TemplateString(totalViews)
    ensures totalViews.Num? && totalViews.n >= 0 ==> AllDigits(m.value) && DigitsValue(m.value) == totalViews.n
    ensures totalViews.Num? && totalViews.n < 0 ==>
              m.value[0] == '-' && AllDigits(m.value[1..]) && DigitsValue(m.value[1..]) == -totalViews.n
    ensures totalViews.Str? ==> m.value == totalViews.s
  {
    var m := MetafieldsSetInput(gid, MetafieldNamespace, MetafieldKey, MetafieldType, TemplateString(totalViews));
    if totalViews.Num? && totalViews.n >= 0 then TemplateOfCount(totalViews.n); m
    else if totalViews.Num? then TemplateOfNegative(totalViews.n); m
    else m
  }

  /** The validation chain and dispatch, in the route's order: action present,
      productGid well formed, then get, or update with a truthy totalViews,
      else an unknown action. */
  function Dispatch(body: RequestBody): (p: Plan)
    ensures !Truthy(body.action) ==> p == Refuse(ActionMissing)
    ensures Truthy(body.action) && !HasProductPrefix(body.productGid) ==> p == Refuse(ProductGidInvalid)
    ensures p == Refuse(TotalViewsMissing) <==>
              HasProductPrefix(body.productGid) && body.action == Str(UpdateAction) && !Truthy(body.totalViews)
    ensures p == Refuse(ActionInvalid) <==>
              Truthy(body.action) && HasProductPrefix(body.productGid)
              && body.action != Str(GetAction) && body.action != Str(UpdateAction)
    ensures p.Call? ==> HasProductPrefix(body.productGid)
    ensures p.Call? && p.call.ProductMetafieldQuery? <==>
              Truthy(body.action) && HasProductPrefix(body.productGid) && body.action == Str(GetAction)
    ensures p.Call? ==> p.call.ProductMetafieldQuery? ==> p.call.productGid == body.productGid.value
    ensures p.Call? && p.call.MetafieldsSet? <==>
              HasProductPrefix(body.productGid) && body.action == Str(UpdateAction) && Truthy(body.totalViews)
    ensures p.Call? && p.call.MetafieldsSet? ==>
              p.call.input == SetInput(body.productGid.value, body.totalViews)
  {
    if !Truthy(body.action) then Refuse(ActionMissing)
    else if !Present(body.productGid) || !StartsWith(body.productGid.value, ProductGidPrefix) then
      Refuse(ProductGidInvalid)
    else if body.action == Str(GetAction) then
      Call(ProductMetafieldQuery(body.productGid.value))
    else if body.action == Str(UpdateAction) then
      if !Truthy(body.totalViews) then Refuse(TotalViewsMissing)
      else Call(MetafieldsSet(SetInput(body.productGid.value, body.totalViews)))
    else Refuse(ActionInvalid)
  }

  /** `parseInt(+value[1])`: the count is taken from the character at index 1
      alone; a value shorter than two characters gives NaN. */
  function ReadCount(value: string): (v: JsValue)
    ensures |value| < 2 ==> v == NaN
    ensures |value| >= 2 ==> v == ParseIntOfUnaryPlus(value[1])
    ensures v.Num? ==> 0 <= v.n < 10
  {
    if |value| < 2 then NaN else ParseIntOfUnaryPlus(value[1])
  }

  /** `data.data?.product?.metafield`, when there is one. */
  function FoundMetafield(reply: GraphQLReply): (m: Option<MetafieldNode>)
    ensures m.Some? <==>
              reply.Reply? && reply.data.Some? && reply.data.value.product.Some?
              && reply.data.value.product.value.metafield.Some?
    ensures m.Some? ==> m == reply.data.value.product.value.metafield
  {
    if reply.Reply? && reply.data.Some? && reply.data.value.product.Some? then
      reply.data.value.product.value.metafield
    else None
  }

  /** The get path's response to the reply of the metafield query. A missing
      metafield is 404; a failed call, or a metafield whose value is null
      (indexing null throws), is 500; otherwise the count read from the value. */
  function ReadResponse(reply: GraphQLReply): (r: Response)
    ensures reply.TransportFailed? ==> r == Failure(ShopifyCallFailed)
    ensures reply.Reply? && FoundMetafield(reply).None? ==> r == Failure(MetafieldNotFound)
    ensures FoundMetafield(reply).Some? && FoundMetafield(reply).value.value.None? ==> r == Failure(ShopifyCallFailed)
    ensures r.Success? <==> FoundMetafield(reply).Some? && FoundMetafield(reply).value.value.Some?
    ensures r.Success? ==> r.totalViews == ReadCount(FoundMetafield(reply).value.value.value)
  {
    if reply.TransportFailed? then Failure(ShopifyCallFailed)
    else
      match FoundMetafield(reply)
      case None => Failure(MetafieldNotFound)
      case Some(m) =>
        if m.value.None? then Failure(ShopifyCallFailed) else Success(ReadCount(m.value.value))
  }

  /** The update path's response to the reply of the mutation: `errors` gives
      500; so does a reply without data.metafieldsSet (reading its field
      throws); otherwise the requested totalViews is echoed unchanged. */
  function WriteResponse(reply: GraphQLReply, totalViews: JsValue): (r: Response)
    ensures r == Failure(UpdateFailed) <==> reply.Reply? && reply.errors
    ensures r.Success? <==> reply.Reply? && !reply.errors && reply.data.Some? && reply.data.value.metafieldsSet.Some?
    ensures r.Success? ==> r.totalViews == totalViews
    ensures !r.Success? ==> r.Status() == 500
  {
    if reply.TransportFailed? then Failure(ShopifyCallFailed)
    else if reply.errors then Failure(UpdateFailed)
    else if reply.data.None? || reply.data.value.metafieldsSet.None? then Failure(ShopifyCallFailed)
    else Success(totalViews)
  }

  /** The whole route for one request, given what upstream would answer. */
  function Route(body: RequestBody, reply: GraphQLReply): (o: Outcome)
    ensures o.call.None? <==> Dispatch(body).Refuse?
    ensures o.call.None? ==> o.response == Failure(Dispatch(body).error) && o.response.Status() == 400
    ensures o.call.Some? ==> Dispatch(body) == Call(o.call.value)
    ensures o.call.Some? && o.call.value.ProductMetafieldQuery? ==> o.response == ReadResponse(reply)
    ensures o.call.Some? && o.call.value.MetafieldsSet? ==> o.response == WriteResponse(reply, body.totalViews)
  {
    match Dispatch(body)
    case Refuse(e) => Outcome(None, Failure(e))
    case Call(c) =>
      Outcome(Some(c), if c.ProductMetafieldQuery? then ReadResponse(reply) else WriteResponse(reply, body.totalViews))
  }

  /** A request the chain refuses makes no upstream call, so its response
      does not depend on anything upstream could answer. */
  lemma RefusalIgnoresUpstream(body: RequestBody, reply1: GraphQLReply, reply2: GraphQLReply)
    requires Dispatch(body).Refuse?
    ensures Route(body, reply1) == Route(body, reply2)
    ensures Route(body, reply1).call == None
  {
  }

  /** The action is checked first: without one, the response is 400
      ActionMissing whatever the productGid and totalViews. */
  lemma MissingActionFirst(body: RequestBody, reply: GraphQLReply)
    requires !Truthy(body.action)
    ensures Route(body, reply) == Outcome(None, Failure(ActionMissing))
  {
  }

  /** A productGid that is absent or lacks the product prefix gives 400 and
      no call, once an action is present. */
  lemma BadProductGidRefused(body: RequestBody, reply: GraphQLReply)
    requires Truthy(body.action)
    requires body.productGid.None? || !StartsWith(body.productGid.value, ProductGidPrefix)
    ensures Route(body, reply) == Outcome(None, Failure(ProductGidInvalid))
  {
  }

  /** An update whose totalViews is falsy, 0 included, gives 400 and no call. */
  lemma FalsyTotalViewsRefused(gid: string, totalViews: JsValue, reply: GraphQLReply)
    requires StartsWith(gid, ProductGidPrefix)
    requires totalViews in {Undefined, Null, Bool(false), Num(0), NaN, Str("")}
    ensures Route(RequestBody(Str(UpdateAction), Some(gid), totalViews), reply)
            == Outcome(None, Failure(TotalViewsMissing))
  {
  }

  /** Any other action that passes the first two checks gives 400 and no call. */
  lemma UnknownActionRefused(body: RequestBody, reply: GraphQLReply)
    requires Truthy(body.action) && HasProductPrefix(body.productGid)
    requires body.action != Str(GetAction) && body.action != Str(UpdateAction)
    ensures Route(body, reply) == Outcome(None, Failure(ActionInvalid))
  {
  }

  /** A valid update whose mutation reply has no `errors` and carries
      data.metafieldsSet makes the metafieldsSet call with `${totalViews}` and
      answers 200 echoing the requested totalViews. */
  lemma UpdateEchoesTotalViews(gid: string, totalViews: JsValue, payload: MetafieldsSetPayload,
                               product: Option<ProductNode>)
    requires StartsWith(gid, ProductGidPrefix) && Truthy(totalViews)
    ensures var o := Route(RequestBody(Str(UpdateAction), Some(gid), totalViews),
                           Reply(false, Some(ReplyData(product, Some(payload)))));
            && o.call == Some(MetafieldsSet(SetInput(gid, totalViews)))
            && o.response == Success(totalViews)
            && o.response.Status() == 200
  {
  }

  /** A get whose reply holds the metafield value answers 200 with the count
      read from it. */
  lemma GetReadsMetafield(gid: string, value: string, errors: bool, metafieldsSet: Option<MetafieldsSetPayload>)
    requires StartsWith(gid, ProductGidPrefix)
    ensures var o := Route(RequestBody(Str(GetAction), Some(gid), Undefined),
                           Reply(errors, Some(ReplyData(Some(ProductNode(Some(MetafieldNode(Some(value))))), metafieldsSet))));
            && o.call == Some(ProductMetafieldQuery(gid))
            && o.response == Success(ReadCount(value))
  {
  }

  /** A client that sends totalViews as a one-element array `[n]` writes the
      bare numeral of n, since an array renders as its joined elements. */
  lemma ArrayTotalViewsWritesBareNumeral(gid: string, n: nat)
    ensures SetInput(gid, Arr([Num(n)])).value == Decimal(n)
  {
    TemplateOfSingletonArray(n);
  }

  /** A stored list value "[d]" of one digit reads back as d. */
  lemma ReadSingleDigitList(d: nat)
    requires d < 10
    ensures ReadCount("[" + Decimal(d) + "]") == Num(d)
  {
  }

  /** A stored list value "[n]" reads as n's leading digit only, so every
      count from 10 on is misread. */
  lemma ReadListLeadingDigit(n: nat)
    ensures ReadCount("[" + Decimal(n) + "]") == Num(LeadingDigit(n))
    ensures n >= 10 ==> ReadCount("[" + Decimal(n) + "]") != Num(n)
  {
    DecimalStartsWithLeadingDigit(n);
    assert ("[" + Decimal(n) + "]")[1] == Decimal(n)[0];
  }

  /** The update path writes `${totalViews}` without brackets; read back, a
      one-digit count written that way gives NaN, not the count. */
  lemma WrittenValueReadsNaN(gid: string, n: nat)
    requires n < 10
    ensures ReadCount(SetInput(gid, Num(n)).value) == NaN
  {
  }

  /** On the get path the count depends on the metafield value's second
      character and nothing else. */
  lemma ReadCountSecondCharOnly(v1: string, v2: string)
    requires |v1| >= 2 && |v2| >= 2 && v1[1] == v2[1]
    ensures ReadCount(v1) == ReadCount(v2)
  {
  }

  /** Field-level userErrors of the mutation do not change the response:
      only the top-level `errors` member is inspected. */
  lemma UserErrorsIgnored(errors: bool, eset1: seq<UserError>, eset2: seq<UserError>,
                          product: Option<ProductNode>, totalViews: JsValue)
    ensures WriteResponse(Reply(errors, Some(ReplyData(product, Some(MetafieldsSetPayload(eset1))))), totalViews)
         == WriteResponse(Reply(errors, Some(ReplyData(product, Some(MetafieldsSetPayload(eset2))))), totalViews)
  {
  }
}

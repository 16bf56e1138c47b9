/** What the four classifiers guarantee together: the negations, which
    members decide each variant and which do not, and where the variants
    overlap. Every lemma is stated about the classifiers of module JsonRpc. */
module JsonRpcProperties {
  import opened JsonValue
  import opened JsonSchema
  import opened JsonRpcShapes
  import opened JsonRpc

  /** Each negated predicate is the exact complement of its positive one.
      This holds by definition, as in the source. */
  lemma NegationsAreComplements(v: Json)
    ensures IsntJsonRpcNotification(v) == !IsJsonRpcNotification(v)
    ensures IsntJsonRpcRequest(v) == !IsJsonRpcRequest(v)
    ensures IsntJsonRpcSuccess(v) == !IsJsonRpcSuccess(v)
    ensures IsntJsonRpcError(v) == !IsJsonRpcError(v)
  {
  }

  /** Null, booleans, numbers, strings and arrays are none of the four variants. */
  lemma NonObjectsNeverClassify(v: Json)
    requires !v.Object?
    ensures !IsJsonRpcNotification(v) && !IsJsonRpcRequest(v)
    ensures !IsJsonRpcSuccess(v) && !IsJsonRpcError(v)
  {
  }

  /** An `id` member, whatever its value, rules out a Notification; so no value
      is both a Notification and a Request. */
  lemma NotificationForbidsId(m: map<string, Json>, x: Json)
    ensures !IsJsonRpcNotification(Object(m["id" := x]))
  {
  }

  /** A Notification is none of the other three variants, since all of them
      require an `id`. */
  lemma NotificationExcludesOthers(v: Json)
    requires IsJsonRpcNotification(v)
    ensures !IsJsonRpcRequest(v) && !IsJsonRpcSuccess(v) && !IsJsonRpcError(v)
  {
  }

  /** For Request, Success and Error the `id` check is exactly "a string or a
      number": with any such id `y` in place, the id `x` is accepted if and
      only if it is a string or a number; a null, boolean, array or object id
      is always rejected. */
  lemma IdIsStringOrNumber(m: map<string, Json>, x: Json, y: Json)
    requires IsId(y)
    ensures IsJsonRpcRequest(Object(m["id" := x])) <==> IsId(x) && IsJsonRpcRequest(Object(m["id" := y]))
    ensures IsJsonRpcSuccess(Object(m["id" := x])) <==> IsId(x) && IsJsonRpcSuccess(Object(m["id" := y]))
    ensures IsJsonRpcError(Object(m["id" := x])) <==> IsId(x) && IsJsonRpcError(Object(m["id" := y]))
  {
  }

  /** `params` may be absent; when present it must be an array or an object:
      setting it to `p` keeps a Notification or Request valid exactly when it
      was valid without `params` and `p` is structured. */
  lemma ParamsOptionalButStructured(m: map<string, Json>, p: Json)
    ensures IsJsonRpcNotification(Object(m["params" := p])) <==>
              IsParams(p) && IsJsonRpcNotification(Object(m - {"params"}))
    ensures IsJsonRpcRequest(Object(m["params" := p])) <==>
              IsParams(p) && IsJsonRpcRequest(Object(m - {"params"}))
  {
  }

  /** Removing a required member makes the variant fail. */
  lemma RequiredMembersEnforced(m: map<string, Json>, k: string)
    ensures k in ["jsonrpc", "method"] ==> !IsJsonRpcNotification(Object(m - {k}))
    ensures k in ["jsonrpc", "id", "method"] ==> !IsJsonRpcRequest(Object(m - {k}))
    ensures k in ["jsonrpc", "id", "result"] ==> !IsJsonRpcSuccess(Object(m - {k}))
    ensures k in ["jsonrpc", "id", "error"] ==> !IsJsonRpcError(Object(m - {k}))
  {
  }

  /** The `error` member of an Error is an object with a number `code` and a
      string `message`: one that lacks either, or has either of another type,
      fails. */
  lemma ErrorObjectRequirements(m: map<string, Json>, e: Json)
    ensures IsJsonRpcError(Object(m["error" := e])) ==>
              && e.Object?
              && "code" in e.members && e.members["code"].Number?
              && "message" in e.members && e.members["message"].String?
  {
  }

  /** The `data` member of an error object may hold any value, or be absent. */
  lemma ErrorDataUnconstrained(m: map<string, Json>, e: map<string, Json>, d: Json)
    ensures IsJsonRpcError(Object(m["error" := Object(e["data" := d])])) ==
            IsJsonRpcError(Object(m["error" := Object(e - {"data"})]))
  {
    var with, without := e["data" := d], e - {"data"};
    assert "code" in with <==> "code" in without;
    assert "message" in with <==> "message" in without;
    assert IsErrorObject(Object(with)) == IsErrorObject(Object(without));
    assert IsError(Object(m["error" := Object(with)])) == IsError(Object(m["error" := Object(without)]));
  }

  /** Only the type of `jsonrpc` is checked: any string passes, "1.0" as well as "2.0". */
  lemma JsonrpcAnyString(m: map<string, Json>, s: string, t: string)
    ensures IsJsonRpcNotification(Object(m["jsonrpc" := String(s)])) == IsJsonRpcNotification(Object(m["jsonrpc" := String(t)]))
    ensures IsJsonRpcRequest(Object(m["jsonrpc" := String(s)])) == IsJsonRpcRequest(Object(m["jsonrpc" := String(t)]))
    ensures IsJsonRpcSuccess(Object(m["jsonrpc" := String(s)])) == IsJsonRpcSuccess(Object(m["jsonrpc" := String(t)]))
    ensures IsJsonRpcError(Object(m["jsonrpc" := String(s)])) == IsJsonRpcError(Object(m["jsonrpc" := String(t)]))
  {
  }

  /** `result` may hold any value, null included. */
  lemma ResultUnconstrained(m: map<string, Json>, x: Json)
    ensures IsJsonRpcSuccess(Object(m["result" := x])) == IsJsonRpcSuccess(Object(m["result" := Null]))
  {
  }

  /** Adding or changing a member that a variant's schema does not name never
      changes whether an object is of that variant. */
  lemma ExtraMembersIgnored(m: map<string, Json>, k: string, x: Json)
    ensures k !in NotificationProperties ==>
              IsJsonRpcNotification(Object(m[k := x])) == IsJsonRpcNotification(Object(m))
    ensures k !in RequestProperties ==>
              IsJsonRpcRequest(Object(m[k := x])) == IsJsonRpcRequest(Object(m))
    ensures k !in SuccessProperties ==>
              IsJsonRpcSuccess(Object(m[k := x])) == IsJsonRpcSuccess(Object(m))
    ensures k !in ErrorProperties ==>
              IsJsonRpcError(Object(m[k := x])) == IsJsonRpcError(Object(m))
  {
    if k !in NotificationProperties {
      UnmentionedMemberIrrelevant(NotificationSchema, m, k, x);
    }
    if k !in RequestProperties {
      UnmentionedMemberIrrelevant(RequestSchema, m, k, x);
    }
    if k !in SuccessProperties {
      UnmentionedMemberIrrelevant(SuccessSchema, m, k, x);
    }
    if k !in ErrorProperties {
      UnmentionedMemberIrrelevant(ErrorSchema, m, k, x);
    }
  }

  /** The variants are not exclusive: a Request that also carries a `result`
      is a Success, and a Success that also carries a valid `error` is an Error. */
  lemma VariantsOverlap(v: Json)
    ensures IsJsonRpcRequest(v) && "result" in v.members ==> IsJsonRpcSuccess(v)
    ensures IsJsonRpcSuccess(v) && "error" in v.members && IsErrorObject(v.members["error"]) ==> IsJsonRpcError(v)
  {
  }

  /** A message that mixes the Request and Success shapes is both. */
  lemma MixedMessageIsRequestAndSuccess(v: Json)
    requires v == Object(map["jsonrpc" := String("2.0"), "id" := Number("1"),
                             "method" := String("ping"), "result" := String("x")])
    ensures IsJsonRpcRequest(v) && IsJsonRpcSuccess(v)
    ensures !IsJsonRpcNotification(v) && !IsJsonRpcError(v)
  {
    var m := v.members;
    assert "id" in m && "error" !in m;
    assert IsRequest(v) && IsSuccess(v);
  }

  /** `{"jsonrpc": "2.0", "method": "ping"}` is a Notification and nothing else. */
  lemma PingIsNotification(v: Json)
    requires v == Object(map["jsonrpc" := String("2.0"), "method" := String("ping")])
    ensures IsJsonRpcNotification(v)
    ensures !IsJsonRpcRequest(v) && !IsJsonRpcSuccess(v) && !IsJsonRpcError(v)
  {
    var m := v.members;
    assert "id" !in m && "params" !in m;
    assert IsNotification(v);
  }

  /** A request with positional params is a Request and nothing else. */
  lemma PingWithParamsIsRequest(v: Json)
    requires v == Object(map["jsonrpc" := String("2.0"), "id" := Number("1"), "method" := String("ping"),
                             "params" := Array([Number("1"), Number("2")])])
    ensures IsJsonRpcRequest(v)
    ensures !IsJsonRpcNotification(v) && !IsJsonRpcSuccess(v) && !IsJsonRpcError(v)
  {
    var m := v.members;
    assert "id" in m && "result" !in m && "error" !in m;
    assert IsRequest(v);
  }

  /** A response with a string id and an object result is a Success and nothing else. */
  lemma ObjectResultIsSuccess(v: Json)
    requires v == Object(map["jsonrpc" := String("2.0"), "id" := String("abc"),
                             "result" := Object(map["ok" := Bool(true)])])
    ensures IsJsonRpcSuccess(v)
    ensures !IsJsonRpcNotification(v) && !IsJsonRpcRequest(v) && !IsJsonRpcError(v)
  {
    var m := v.members;
    assert "id" in m && "method" !in m && "error" !in m;
    assert IsSuccess(v);
  }

  /** An Invalid Request error response is an Error and nothing else; without
      its `message` it is not an Error. */
  lemma InvalidRequestIsError(v: Json)
    requires v == Object(map["jsonrpc" := String("2.0"), "id" := Number("5"),
                             "error" := Object(map["code" := Number("-32600"), "message" := String("Invalid Request")])])
    ensures IsJsonRpcError(v)
    ensures !IsJsonRpcNotification(v) && !IsJsonRpcRequest(v) && !IsJsonRpcSuccess(v)
    ensures !IsJsonRpcError(Object(v.members["error" := Object(map["code" := Number("-32600")])]))
  {
    var m := v.members;
    assert "id" in m && "method" !in m && "result" !in m;
    assert IsErrorObject(m["error"]);
    assert IsError(v);
    var e := Object(map["code" := Number("-32600")]);
    assert !IsErrorObject(e) by { assert "message" !in e.members; }
  }
}

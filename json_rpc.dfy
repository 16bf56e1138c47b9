/** The JSON-RPC message classifier: the seven schema constants and, per message
    variant, a predicate that validates a value against its schema and the
    predicate's negation. Each classifier is the schema interpreter applied to
    a constant schema, and its contract says which shape that amounts to. */
module JsonRpc {
  import opened JsonValue
  import opened JsonSchema
  import opened JsonRpcShapes

  /** The id schema: exactly one of the types string and number. */
  const IdSchema: Schema := OneOf([OfType(StringType), OfType(NumberType)])

  /** The params schema: exactly one of the types array and object. */
  const ParamsSchema: Schema := OneOf([OfType(ArrayType), OfType(ObjectType)])

  // The four message schemas and the error object schema: each is an object
  // schema with its `properties` and its `required` list.

  const NotificationProperties: map<string, Schema> :=
    map["jsonrpc" := OfType(StringType), "method" := OfType(StringType),
        "params" := ParamsSchema, "id" := Reject]

  const NotificationSchema: Schema := ObjectOf(NotificationProperties, ["jsonrpc", "method"])

  const RequestProperties: map<string, Schema> :=
    map["jsonrpc" := OfType(StringType), "id" := IdSchema,
        "method" := OfType(StringType), "params" := ParamsSchema]

  const RequestSchema: Schema := ObjectOf(RequestProperties, ["jsonrpc", "id", "method"])

  const SuccessProperties: map<string, Schema> :=
    map["jsonrpc" := OfType(StringType), "id" := IdSchema, "result" := Empty]

  const SuccessSchema: Schema := ObjectOf(SuccessProperties, ["jsonrpc", "id", "result"])

  const ErrorObjectProperties: map<string, Schema> :=
    map["code" := OfType(NumberType), "message" := OfType(StringType), "data" := Empty]

  const ErrorObjectSchema: Schema := ObjectOf(ErrorObjectProperties, ["code", "message"])

  const ErrorProperties: map<string, Schema> :=
    map["jsonrpc" := OfType(StringType), "id" := IdSchema, "error" := ErrorObjectSchema]

  const ErrorSchema: Schema := ObjectOf(ErrorProperties, ["jsonrpc", "id", "error"])

  /** The id schema's `oneOf` acts as "either": no value is both a string and a number. */
  lemma IdSchemaExactly(v: Json)
    ensures Validates(IdSchema, v) <==> IsId(v)
  {
    OneOfTwoTypes(StringType, NumberType, v);
  }

  /** The params schema holds of arrays and of objects and of nothing else. */
  lemma ParamsSchemaExactly(v: Json)
    ensures Validates(ParamsSchema, v) <==> IsParams(v)
  {
    OneOfTwoTypes(ArrayType, ObjectType, v);
  }

  /** The error object schema holds exactly of objects with a number `code`
      and a string `message`. */
  lemma ErrorObjectSchemaExactly(v: Json)
    ensures Validates(ErrorObjectSchema, v) <==> IsErrorObject(v)
  {
  }

  /** A value the Notification schema accepts has the Notification shape. */
  lemma NotificationSchemaSound(v: Json)
    ensures Validates(NotificationSchema, v) ==> IsNotification(v)
  {
    if Validates(NotificationSchema, v) {
      var props, req, m := NotificationProperties, ["jsonrpc", "method"], v.members;
      ObjectOfExactly(props, req, v);
      assert req[0] == "jsonrpc" && req[1] == "method";
      assert Validates(props["jsonrpc"], m["jsonrpc"]);
      OfTypeExactly(StringType, m["jsonrpc"]);
      assert Validates(props["method"], m["method"]);
      OfTypeExactly(StringType, m["method"]);
      if "params" in m {
        assert Validates(props["params"], m["params"]);
        ParamsSchemaExactly(m["params"]);
      }
      if "id" in m {
        // the schema `false` under "id" cannot have held
        assert false;
      }
    }
  }

  /** Every value of the Notification shape passes the Notification schema. */
  lemma NotificationSchemaComplete(v: Json)
    ensures IsNotification(v) ==> Validates(NotificationSchema, v)
  {
    if IsNotification(v) {
      var props, req, m := NotificationProperties, ["jsonrpc", "method"], v.members;
      ObjectOfExactly(props, req, v);
      assert req[0] == "jsonrpc" && req[1] == "method";
      forall k | k in props && k in m ensures Validates(props[k], m[k]) {
        if k == "jsonrpc" { OfTypeExactly(StringType, m[k]); }
        if k == "method" { OfTypeExactly(StringType, m[k]); }
        if k == "params" { ParamsSchemaExactly(m[k]); }
      }
    }
  }

  /** A value the Request schema accepts has the Request shape. */
  lemma RequestSchemaSound(v: Json)
    ensures Validates(RequestSchema, v) ==> IsRequest(v)
  {
    if Validates(RequestSchema, v) {
      var props, req, m := RequestProperties, ["jsonrpc", "id", "method"], v.members;
      ObjectOfExactly(props, req, v);
      assert req[0] == "jsonrpc" && req[1] == "id" && req[2] == "method";
      assert Validates(props["jsonrpc"], m["jsonrpc"]);
      OfTypeExactly(StringType, m["jsonrpc"]);
      assert Validates(props["id"], m["id"]);
      IdSchemaExactly(m["id"]);
      assert Validates(props["method"], m["method"]);
      OfTypeExactly(StringType, m["method"]);
      if "params" in m {
        assert Validates(props["params"], m["params"]);
        ParamsSchemaExactly(m["params"]);
      }
    }
  }

  /** Every value of the Request shape passes the Request schema. */
  lemma RequestSchemaComplete(v: Json)
    ensures IsRequest(v) ==> Validates(RequestSchema, v)
  {
    if IsRequest(v) {
      var props, req, m := RequestProperties, ["jsonrpc", "id", "method"], v.members;
      ObjectOfExactly(props, req, v);
      assert req[0] == "jsonrpc" && req[1] == "id" && req[2] == "method";
      forall k | k in props && k in m ensures Validates(props[k], m[k]) {
        if k == "jsonrpc" { OfTypeExactly(StringType, m[k]); }
        if k == "id" { IdSchemaExactly(m[k]); }
        if k == "method" { OfTypeExactly(StringType, m[k]); }
        if k == "params" { ParamsSchemaExactly(m[k]); }
      }
    }
  }

  /** A value the Success schema accepts has the Success shape. */
  lemma SuccessSchemaSound(v: Json)
    ensures Validates(SuccessSchema, v) ==> IsSuccess(v)
  {
    if Validates(SuccessSchema, v) {
      var props, req, m := SuccessProperties, ["jsonrpc", "id", "result"], v.members;
      ObjectOfExactly(props, req, v);
      assert req[0] == "jsonrpc" && req[1] == "id" && req[2] == "result";
      assert Validates(props["jsonrpc"], m["jsonrpc"]);
      OfTypeExactly(StringType, m["jsonrpc"]);
      assert Validates(props["id"], m["id"]);
      IdSchemaExactly(m["id"]);
      assert Validates(props["result"], m["result"]);
      BooleanSchemas(m["result"]);
    }
  }

  /** Every value of the Success shape passes the Success schema. */
  lemma SuccessSchemaComplete(v: Json)
    ensures IsSuccess(v) ==> Validates(SuccessSchema, v)
  {
    if IsSuccess(v) {
      var props, req, m := SuccessProperties, ["jsonrpc", "id", "result"], v.members;
      ObjectOfExactly(props, req, v);
      assert req[0] == "jsonrpc" && req[1] == "id" && req[2] == "result";
      forall k | k in props && k in m ensures Validates(props[k], m[k]) {
        if k == "jsonrpc" { OfTypeExactly(StringType, m[k]); }
        if k == "id" { IdSchemaExactly(m[k]); }
        if k == "result" { BooleanSchemas(m[k]); }
      }
    }
  }

  /** A value the Error schema accepts has the Error shape. */
  lemma ErrorSchemaSound(v: Json)
    ensures Validates(ErrorSchema, v) ==> IsError(v)
  {
    if Validates(ErrorSchema, v) {
      var props, req, m := ErrorProperties, ["jsonrpc", "id", "error"], v.members;
      ObjectOfExactly(props, req, v);
      assert req[0] == "jsonrpc" && req[1] == "id" && req[2] == "error";
      assert Validates(props["jsonrpc"], m["jsonrpc"]);
      OfTypeExactly(StringType, m["jsonrpc"]);
      assert Validates(props["id"], m["id"]);
      IdSchemaExactly(m["id"]);
      assert Validates(props["error"], m["error"]);
      ErrorObjectSchemaExactly(m["error"]);
    }
  }

  /** Every value of the Error shape passes the Error schema. */
  lemma ErrorSchemaComplete(v: Json)
    ensures IsError(v) ==> Validates(ErrorSchema, v)
  {
    if IsError(v) {
      var props, req, m := ErrorProperties, ["jsonrpc", "id", "error"], v.members;
      ObjectOfExactly(props, req, v);
      assert req[0] == "jsonrpc" && req[1] == "id" && req[2] == "error";
      forall k | k in props && k in m ensures Validates(props[k], m[k]) {
        if k == "jsonrpc" { OfTypeExactly(StringType, m[k]); }
        if k == "id" { IdSchemaExactly(m[k]); }
        if k == "error" { ErrorObjectSchemaExactly(m[k]); }
      }
    }
  }

  /** Validates `v` against the Notification schema: true exactly for values of the Notification shape. */
  function IsJsonRpcNotification(v: Json): (r: bool)
    ensures r <==> IsNotification(v)
  {
    NotificationSchemaSound(v);
    NotificationSchemaComplete(v);
    Validates(NotificationSchema, v)
  }

  /** The negation of IsJsonRpcNotification. */
  function IsntJsonRpcNotification(v: Json): (r: bool)
    ensures r <==> !IsNotification(v)
  {
    !IsJsonRpcNotification(v)
  }

  /** Validates `v` against the Request schema: true exactly for values of the Request shape. */
  function IsJsonRpcRequest(v: Json): (r: bool)
    ensures r <==> IsRequest(v)
  {
    RequestSchemaSound(v);
    RequestSchemaComplete(v);
    Validates(RequestSchema, v)
  }

  /** The negation of IsJsonRpcRequest. */
  function IsntJsonRpcRequest(v: Json): (r: bool)
    ensures r <==> !IsRequest(v)
  {
    !IsJsonRpcRequest(v)
  }

  /** Validates `v` against the Success schema: true exactly for values of the Success shape. */
  function IsJsonRpcSuccess(v: Json): (r: bool)
    ensures r <==> IsSuccess(v)
  {
    SuccessSchemaSound(v);
    SuccessSchemaComplete(v);
    Validates(SuccessSchema, v)
  }

  /** The negation of IsJsonRpcSuccess. */
  function IsntJsonRpcSuccess(v: Json): (r: bool)
    ensures r <==> !IsSuccess(v)
  {
    !IsJsonRpcSuccess(v)
  }

  /** Validates `v` against the Error schema: true exactly for values of the Error shape. */
  function IsJsonRpcError(v: Json): (r: bool)
    ensures r <==> IsError(v)
  {
    ErrorSchemaSound(v);
    ErrorSchemaComplete(v);
    Validates(ErrorSchema, v)
  }

  /** The negation of IsJsonRpcError. */
  function IsntJsonRpcError(v: Json): (r: bool)
    ensures r <==> !IsError(v)
  {
    !IsJsonRpcError(v)
  }
}

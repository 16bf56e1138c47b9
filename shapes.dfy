/** The JSON-RPC message shapes written out as member checks: which members
    each variant requires, which type each member present must have, which
    member a Notification forbids. This is the reference against which the
    schema-driven classifiers of module JsonRpc are proved. */
module JsonRpcShapes {
  import opened JsonValue

  /** `m` has member `k` and it satisfies `p`. */
  predicate HasMember(m: map<string, Json>, k: string, p: Json -> bool) {
    k in m && p(m[k])
  }

  /** If `m` has member `k`, it satisfies `p`. */
  predicate MemberIfPresent(m: map<string, Json>, k: string, p: Json -> bool) {
    k in m ==> p(m[k])
  }

  predicate IsString(v: Json) { v.String? }

  predicate IsNumber(v: Json) { v.Number? }

  /** An id is a string or a number: never null, a boolean, an array or an object. */
  predicate IsId(v: Json) { v.String? || v.Number? }

  /** Params are positional (an array) or named (an object), never a scalar. */
  predicate IsParams(v: Json) { v.Array? || v.Object? }

  /** A string `jsonrpc` and a string `method`; `params`, if present, are
      params; there is no `id` member at all, whatever its value. */
  predicate IsNotification(v: Json) {
    && v.Object?
    && HasMember(v.members, "jsonrpc", IsString)
    && HasMember(v.members, "method", IsString)
    && MemberIfPresent(v.members, "params", IsParams)
    && "id" !in v.members
  }

  /** A string `jsonrpc`, an id, a string `method`; `params`, if present, are params. */
  predicate IsRequest(v: Json) {
    && v.Object?
    && HasMember(v.members, "jsonrpc", IsString)
    && HasMember(v.members, "id", IsId)
    && HasMember(v.members, "method", IsString)
    && MemberIfPresent(v.members, "params", IsParams)
  }

  /** A string `jsonrpc`, an id and a `result` member of any value. */
  predicate IsSuccess(v: Json) {
    && v.Object?
    && HasMember(v.members, "jsonrpc", IsString)
    && HasMember(v.members, "id", IsId)
    && "result" in v.members
  }

  /** An object with a number `code` and a string `message`; `data` is free. */
  predicate IsErrorObject(v: Json) {
    && v.Object?
    && HasMember(v.members, "code", IsNumber)
    && HasMember(v.members, "message", IsString)
  }

  /** A string `jsonrpc`, an id and an `error` member that is an error object. */
  predicate IsError(v: Json) {
    && v.Object?
    && HasMember(v.members, "jsonrpc", IsString)
    && HasMember(v.members, "id", IsId)
    && HasMember(v.members, "error", IsErrorObject)
  }
}

/** The fragment of JSON Schema draft-07 that the JSON-RPC schemas are written in:
    the boolean schema `false`, and schema objects using only the keywords
    `type` (Validation section 6.1.1), `properties` (6.5.4), `required` (6.5.3)
    and `oneOf` (6.7.3). The empty schema `{}` is the schema object with no
    keyword (Core section 4.3.2). */
module JsonSchema {
  import opened JsonValue

  datatype Option<T> = None | Some(value: T)

  /** The primitive types of draft-07 that have a JSON value of their own
      (`integer` is left out: numbers are opaque here). */
  datatype JsonType = NullType | BooleanType | NumberType | StringType | ArrayType | ObjectType

  datatype Schema =
    | Reject
      // the boolean schema `false`
    | Keywords(typ: Option<JsonType>, properties: map<string, Schema>,
               required: seq<string>, oneOf: seq<Schema>)
      // a schema object; an absent `type` is None, an absent `properties`,
      // `required` or `oneOf` is empty (draft-07 demands a non-empty `oneOf`
      // list, so the empty list never stands for a `oneOf` that is present)

  /** `{}` */
  const Empty: Schema := Keywords(None, map[], [], [])

  /** `{ type: t }` */
  function OfType(t: JsonType): Schema {
    Keywords(Some(t), map[], [], [])
  }

  /** `{ oneOf: subs }` */
  function OneOf(subs: seq<Schema>): Schema
    requires |subs| > 0
  {
    Keywords(None, map[], [], subs)
  }

  /** `{ type: 'object', properties: props, required: req }` */
  function ObjectOf(props: map<string, Schema>, req: seq<string>): Schema {
    Keywords(Some(ObjectType), props, req, [])
  }

  /** The draft-07 type of a value: `object` does not include arrays, nor `null`. */
  function TypeOf(v: Json): JsonType {
    match v
    case Null => NullType
    case Bool(_) => BooleanType
    case Number(_) => NumberType
    case String(_) => StringType
    case Array(_) => ArrayType
    case Object(_) => ObjectType
  }

  /** Does `v` validate against `s`? Each keyword is checked on its own and all
      must hold; `properties` and `required` only constrain objects, `oneOf`
      holds when exactly one subschema holds. */
  predicate Validates(s: Schema, v: Json)
    decreases s
  {
    match s
    case Reject => false
    case Keywords(typ, properties, required, oneOf) =>
      && (typ.Some? ==> TypeOf(v) == typ.value)
      && (v.Object? ==>
            forall k | k in properties && k in v.members :: Validates(properties[k], v.members[k]))
      && (v.Object? ==> forall k | k in required :: k in v.members)
      && (|oneOf| > 0 ==>
            exists i | 0 <= i < |oneOf| ::
              && Validates(oneOf[i], v)
              && forall j | 0 <= j < |oneOf| && j != i :: !Validates(oneOf[j], v))
  }

  /** Does `s` constrain the member `k` of the object it is applied to? Only the
      keywords that look at the object's own members count: `properties` and
      `required`, and those of the `oneOf` alternatives, which are applied to the
      same object. The subschemas under `properties` apply to member values and
      are not looked into. */
  predicate Mentions(s: Schema, k: string)
    decreases s
  {
    match s
    case Reject => false
    case Keywords(_, properties, required, oneOf) =>
      k in properties || k in required || exists i | 0 <= i < |oneOf| :: Mentions(oneOf[i], k)
  }

  /** The boolean schema `false` accepts nothing and the empty schema `{}`
      accepts everything (Core section 4.3.2). */
  lemma BooleanSchemas(v: Json)
    ensures !Validates(Reject, v)
    ensures Validates(Empty, v)
  {
  }

  /** `type` with a single name holds exactly for values of that type. */
  lemma OfTypeExactly(t: JsonType, v: Json)
    ensures Validates(OfType(t), v) <==> TypeOf(v) == t
  {
  }

  /** When two alternatives never hold together, `oneOf` of the two is their
      disjunction. */
  lemma OneOfExclusiveIsEither(a: Schema, b: Schema, v: Json)
    requires !(Validates(a, v) && Validates(b, v))
    ensures Validates(OneOf([a, b]), v) <==> Validates(a, v) || Validates(b, v)
  {
    var subs := [a, b];
    if Validates(a, v) {
      assert Validates(subs[0], v);
      assert forall j | 0 <= j < 2 && j != 0 :: !Validates(subs[j], v);
    } else if Validates(b, v) {
      assert Validates(subs[1], v);
      assert forall j | 0 <= j < 2 && j != 1 :: !Validates(subs[j], v);
    }
  }

  /** `oneOf` of two distinct single types holds exactly for values of either
      type: a value has only one type, so the alternatives exclude each other. */
  lemma OneOfTwoTypes(t: JsonType, u: JsonType, v: Json)
    requires t != u
    ensures Validates(OneOf([OfType(t), OfType(u)]), v) <==> TypeOf(v) == t || TypeOf(v) == u
  {
    OfTypeExactly(t, v);
    OfTypeExactly(u, v);
    OneOfExclusiveIsEither(OfType(t), OfType(u), v);
  }

  /** An object schema with `type: 'object'`, `properties` and `required`
      holds of exactly the objects that carry every required member and whose
      members named in `properties` each satisfy their subschema; members it
      does not name are free, and a named member may be absent. */
  lemma ObjectOfExactly(props: map<string, Schema>, req: seq<string>, v: Json)
    ensures Validates(ObjectOf(props, req), v) <==>
      && v.Object?
      && (forall k | k in req :: k in v.members)
      && (forall k | k in props && k in v.members :: Validates(props[k], v.members[k]))
  {
  }

  /** Changing or adding a member that a schema does not mention never changes
      whether an object validates against it. */
  lemma {:induction false} UnmentionedMemberIrrelevant(s: Schema, m: map<string, Json>, k: string, x: Json)
    requires !Mentions(s, k)
    ensures Validates(s, Object(m[k := x])) <==> Validates(s, Object(m))
    decreases s
  {
    match s
    case Reject =>
    case Keywords(typ, properties, required, oneOf) =>
      var m' := m[k := x];
      forall i | 0 <= i < |oneOf|
        ensures Validates(oneOf[i], Object(m')) <==> Validates(oneOf[i], Object(m))
      {
        UnmentionedMemberIrrelevant(oneOf[i], m, k, x);
      }
      assert forall p | p in properties :: p != k;
      assert forall p | p in required :: p != k;
  }
}

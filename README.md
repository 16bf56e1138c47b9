# JSON-RPC 2.0 message classifier, modelled in Dafny

The repository is one module, `src/json-rpc.ts`. It decides whether a decoded
JSON value is a JSON-RPC 2.0 Notification, Request, Success response or Error
response. Each decision validates the value against one of four constant JSON
Schemas, written in draft-07 and checked by Ajv. These four use three more
constant schemas: one for the id, one for params and one for the error object. Each of the four positive
predicates has a negated twin.

The model has five modules:

- `JsonValue` (json.dfy): the decoded value `Json`. It is null, a boolean, a
  number (kept as an opaque literal), a string, an array, or an object given as
  `map<string, Json>`.
- `JsonSchema` (schema.dfy): the draft-07 fragment the schemas use. That is the
  boolean schema `false`, the empty schema `{}`, and the keywords `type`,
  `properties`, `required` and `oneOf`. `Validates` interprets them, playing the
  part of `ajv.validate`. The lemmas state what each keyword means.
- `JsonRpcShapes` (shapes.dfy): each variant written out as plain member
  checks (`IsId`, `IsParams`, `IsNotification`, `IsRequest`, `IsSuccess`,
  `IsErrorObject`, `IsError`). This is the independent reference definition.
- `JsonRpc` (json_rpc.dfy): the seven schema constants, keyword for keyword,
  and the eight predicates. Each positive predicate runs the interpreter on its
  constant schema, as the source does. Its contract says the result is exactly
  the shape predicate. That rests on a soundness lemma and a completeness lemma
  per schema.
- `JsonRpcProperties` (properties.dfy): what the classifiers guarantee
  together, stated over all inputs, plus the concrete messages of each kind.

The model follows the code, not the JSON-RPC 2.0 standard, in three places:

- `jsonrpc` is checked only to be a string.
- A `null` id is rejected, although section 5 of JSON-RPC 2.0 allows it.
- `result` and `error` are not exclusive.

The TypeScript interfaces (src/json-rpc.ts:15-44) declare `jsonrpc: '2.0'`.
The schema used at run time checks only `type: 'string'`, and the model
follows the schema.

## Model

| member | source | states |
|---|---|---|
| `JsonSchema.BooleanSchemas` | src/json-rpc.ts:66 | the schema `false` (as under `id` in the Notification schema) accepts no value; the empty schema `{}` accepts every value |
| `JsonSchema.OfTypeExactly` | src/json-rpc.ts:48-49 | `{ type: t }` holds exactly of values whose draft-07 type is `t`; `object` excludes arrays and null |
| `JsonSchema.OneOfExclusiveIsEither` | src/json-rpc.ts:46-51 | when two alternatives never hold together, `oneOf` of the two is their disjunction |
| `JsonSchema.OneOfTwoTypes` | src/json-rpc.ts:53-58 | `oneOf` of two distinct single types holds exactly of values of either type |
| `JsonSchema.ObjectOfExactly` | src/json-rpc.ts:60-69 | an object schema holds exactly of objects with every required member, whose members named under `properties` satisfy their subschemas; other members are free, and named but unrequired members may be absent |
| `JsonSchema.UnmentionedMemberIrrelevant` | src/json-rpc.ts:60-110 | adding or changing a member that a schema neither names in `properties`/`required` nor reaches through `oneOf` never changes the verdict (no `additionalProperties`) |
| `JsonRpc.IdSchemaExactly` | src/json-rpc.ts:46-51 | the id schema accepts exactly strings and numbers: not null, booleans, arrays or objects |
| `JsonRpc.ParamsSchemaExactly` | src/json-rpc.ts:53-58 | the params schema accepts exactly arrays and objects, never a scalar |
| `JsonRpc.ErrorObjectSchemaExactly` | src/json-rpc.ts:92-100 | the error object schema accepts exactly objects with a number `code` and a string `message`; `data` is free |
| `JsonRpc.NotificationSchemaSound` | src/json-rpc.ts:60-69 | whatever the Notification schema accepts has a string `jsonrpc` and `method`, params that are structured if present, and no `id` |
| `JsonRpc.NotificationSchemaComplete` | src/json-rpc.ts:60-69 | every value of the Notification shape passes the Notification schema |
| `JsonRpc.RequestSchemaSound` | src/json-rpc.ts:71-80 | whatever the Request schema accepts has a string `jsonrpc` and `method`, a string-or-number `id`, and params that are structured if present |
| `JsonRpc.RequestSchemaComplete` | src/json-rpc.ts:71-80 | every value of the Request shape passes the Request schema |
| `JsonRpc.SuccessSchemaSound` | src/json-rpc.ts:82-90 | whatever the Success schema accepts has a string `jsonrpc`, a string-or-number `id` and a `result` member |
| `JsonRpc.SuccessSchemaComplete` | src/json-rpc.ts:82-90 | every value of the Success shape, with any `result`, passes the Success schema |
| `JsonRpc.ErrorSchemaSound` | src/json-rpc.ts:102-110 | whatever the Error schema accepts has a string `jsonrpc`, a string-or-number `id` and an `error` that is an error object |
| `JsonRpc.ErrorSchemaComplete` | src/json-rpc.ts:102-110 | every value of the Error shape passes the Error schema |
| `JsonRpc.IsJsonRpcNotification` | src/json-rpc.ts:114-117 | validating against the Notification schema is true exactly for the Notification shape |
| `JsonRpc.IsntJsonRpcNotification` | src/json-rpc.ts:119-121 | true exactly for values that are not of the Notification shape |
| `JsonRpc.IsJsonRpcRequest` | src/json-rpc.ts:123-126 | validating against the Request schema is true exactly for the Request shape |
| `JsonRpc.IsntJsonRpcRequest` | src/json-rpc.ts:128-130 | true exactly for values that are not of the Request shape |
| `JsonRpc.IsJsonRpcSuccess` | src/json-rpc.ts:132-135 | validating against the Success schema is true exactly for the Success shape |
| `JsonRpc.IsntJsonRpcSuccess` | src/json-rpc.ts:137-139 | true exactly for values that are not of the Success shape |
| `JsonRpc.IsJsonRpcError` | src/json-rpc.ts:141-144 | validating against the Error schema is true exactly for the Error shape |
| `JsonRpc.IsntJsonRpcError` | src/json-rpc.ts:146-148 | true exactly for values that are not of the Error shape |
| `JsonRpcProperties.NegationsAreComplements` | src/json-rpc.ts:119-148 | each `isnt…` predicate equals the negation of its `is…` predicate, for every value; this holds by definition, as in the source |
| `JsonRpcProperties.NonObjectsNeverClassify` | src/json-rpc.ts:61 | null, booleans, numbers, strings and arrays satisfy none of the four predicates |
| `JsonRpcProperties.NotificationForbidsId` | src/json-rpc.ts:66 | an object with an `id` member, whatever its value, is never a Notification |
| `JsonRpcProperties.NotificationExcludesOthers` | src/json-rpc.ts:60-110 | a Notification is never a Request, Success or Error, since all three require `id` |
| `JsonRpcProperties.IdIsStringOrNumber` | src/json-rpc.ts:71-110 | for Request, Success and Error, an id is accepted if and only if it is a string or a number; any two such ids give the same verdict |
| `JsonRpcProperties.ParamsOptionalButStructured` | src/json-rpc.ts:60-80 | setting `params` to `p` keeps a Notification or Request valid exactly when it is valid without `params` and `p` is an array or an object |
| `JsonRpcProperties.RequiredMembersEnforced` | src/json-rpc.ts:68-109 | removing any member in a variant's `required` list makes that variant false |
| `JsonRpcProperties.ErrorObjectRequirements` | src/json-rpc.ts:95-99 | an Error's `error` is an object with a number `code` and a string `message` |
| `JsonRpcProperties.ErrorDataUnconstrained` | src/json-rpc.ts:97 | an error object's `data` may be absent or hold any value, with the same verdict |
| `JsonRpcProperties.JsonrpcAnyString` | src/json-rpc.ts:63 | any two string values of `jsonrpc` give the same verdict for all four variants; "1.0" passes as "2.0" does |
| `JsonRpcProperties.ResultUnconstrained` | src/json-rpc.ts:87 | `result` may hold any value, null included, with the same verdict |
| `JsonRpcProperties.ExtraMembersIgnored` | src/json-rpc.ts:60-110 | adding or changing a member not named in a variant's `properties` never changes that variant's verdict |
| `JsonRpcProperties.VariantsOverlap` | src/json-rpc.ts:71-90 | a Request with a `result` is also a Success, and a Success with a valid `error` is also an Error |
| `JsonRpcProperties.MixedMessageIsRequestAndSuccess` | src/json-rpc.ts:79-89 | `{jsonrpc:"2.0", id:1, method:"ping", result:"x"}` is both a Request and a Success, and neither a Notification nor an Error |
| `JsonRpcProperties.PingIsNotification` | src/json-rpc.ts:60-69 | `{jsonrpc:"2.0", method:"ping"}` is a Notification and no other variant |
| `JsonRpcProperties.PingWithParamsIsRequest` | src/json-rpc.ts:71-80 | `{jsonrpc:"2.0", id:1, method:"ping", params:[1,2]}` is a Request and no other variant |
| `JsonRpcProperties.ObjectResultIsSuccess` | src/json-rpc.ts:82-90 | `{jsonrpc:"2.0", id:"abc", result:{ok:true}}` is a Success and no other variant |
| `JsonRpcProperties.InvalidRequestIsError` | src/json-rpc.ts:102-110 | `{jsonrpc:"2.0", id:5, error:{code:-32600, message:"Invalid Request"}}` is an Error and no other variant; without `message` it is not an Error |

## Left out

- The lazily created Ajv instance (src/json-rpc.ts:112 and the `if (!ajv)` lines) is left out. It is a foreign library object, built once, with no effect on any result. The interpreter `JsonSchema.Validates` takes its place.
- Ajv's internals are left out: schema compilation, caching, `ajv.errors` reporting, and every draft-07 keyword the seven schemas do not use. `integer` is among them, because numbers are opaque here.
- TypeScript's static narrowing is left out: the `val is …` and `Exclude<…>` result types, and the generic `T` of the type declarations (src/json-rpc.ts:3-44). At run time nothing looks inside `params`, `result` or `data`, so the predicates are plain booleans.
- JavaScript-only values are left out: `undefined` members, functions, `NaN`/`Infinity`, and prototype quirks. Only JSON values are modelled.
- Numbers are an opaque tag (their literal text). There is no floating-point representation and no arithmetic.
- JSON-RPC 2.0 rules that the code does not enforce are not added: the literal `"2.0"` (section 4), null ids (section 5), exclusivity of `result` and `error` (section 5), and batches (section 6).

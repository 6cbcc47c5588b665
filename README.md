# Node `process` polyfill: architecture name and `process.env`

A Dafny model of `ext/node/polyfills/_process/process.ts` from Deno's Node
compatibility layer. It has two parts:

- `Process.Arch` maps the build's CPU identifier to Node's name. It yields
  `"x64"` for `"x86_64"` and `"arm64"` for `"aarch64"`. Any other identifier
  throws `Error("unreachable")`.
- `Process.Env` is the `process.env` proxy together with the native
  environment store it gives a live view of. The store is a
  `map<string, string>` field. The read traps (`Get`, `Has`,
  `GetOwnPropertyDescriptor`, `OwnKeys`) and `DenoEnvGet` are functions of
  the current store. `Set` is a method that updates the store in place.

The host runtime's collaborators are constant fields of `Env`:

- `querySync` is `Deno.permissions.querySync`. It can be missing (`None`),
  and a missing one counts as "granted". A present query gives a
  permission state or throws.
- `getFault` is an error that the native `Deno.env.get` throws on a
  well-formed name.
- `setFault` is an error that the native `Deno.env.set` throws.
- `keysFault` is an error that `Deno.env.toObject()` throws.
- `protoNames` is `Object.getOwnPropertyNames(Object.prototype)`.

The native `get` also throws a `TypeError` for a name that contains `=` or
NUL (`BadName`). JavaScript outcomes are `Js.Completion`: a call returns
normally (`Normal`) or throws (`Throw`). A thrown error is a `TypeError`
or some other error.

Three behaviours of the code are easy to miss:

- `has` (process.ts:94) goes through the same permission check as `get`,
  but `ownKeys` (process.ts:79) does not. A variable written while its read
  permission is denied is stored and listed by `ownKeys`, but `has`
  reports false for it (`DeniedReadIsAbsent`, `HasWithinOwnKeys`).
- `getOwnPropertyDescriptor` (process.ts:82) tests the value for
  truthiness. A variable set to `""` therefore has no descriptor, although
  `has` reports it (`EmptyValueIsHadButNotDescribed`).
- The permission query (process.ts:39) runs before the `try`
  (process.ts:45). Anything it throws, even a `TypeError`, escapes every
  read trap (`QueryFaultEscapes`).

## Model

| member | source | states |
|---|---|---|
| `Process.Arch` | ext/node/polyfills/_process/process.ts:16-24 | yields "x64" exactly for "x86_64" and "arm64" exactly for "aarch64"; every other identifier throws `Error("unreachable")` |
| `Js.Includes` | ext/node/polyfills/_process/process.ts:73 | `protoNames.includes(prop)` holds exactly when `prop` is an element of the array |
| `Process.Env.constructor` | ext/node/polyfills/_process/process.ts:55-61 | the view starts over the given store, permission query, native faults and the `Object.prototype` names |
| `Process.Env.DenoEnvGet` | ext/node/polyfills/_process/process.ts:35-53 | yields undefined when the query answers a state other than granted, whatever the store holds; a missing query counts as granted; whatever the query throws propagates unchanged; a `TypeError` (bad name) becomes undefined; any other native error propagates unchanged; with permission granted and no error it yields exactly the stored value or undefined; a value it yields is always the stored one and was permitted |
| `Process.Env.Get` | ext/node/polyfills/_process/process.ts:62-78 | a permitted, stored, non-empty value is returned as it is; a non-empty string returned always is that stored value; otherwise an `Object.prototype` name yields the inherited member, and any other name yields `""` for a permitted empty value and `undefined` else; it throws exactly when the permission query throws or the native read raises a non-`TypeError`, with that error |
| `Process.Env.OwnKeys` | ext/node/polyfills/_process/process.ts:79 | lists exactly the names in the store, with no permission check; throws exactly what `Deno.env.toObject()` throws |
| `Process.Env.GetOwnPropertyDescriptor` | ext/node/polyfills/_process/process.ts:80-89 | yields a descriptor exactly when the variable is permitted, stored and non-empty, and that descriptor is `{enumerable: true, configurable: true, value}` with the stored value; it throws exactly when the permission query throws or the native read raises a non-`TypeError` |
| `Process.Env.Has` | ext/node/polyfills/_process/process.ts:94 | true exactly when the variable is permitted, readable without error and stored, empty value included; it throws exactly when the permission query throws or the native read raises a non-`TypeError` |
| `Process.Env.Set` | ext/node/polyfills/_process/process.ts:90-93 | with no permission check it writes `store[prop] := value` and reports true, unless the native write throws, which leaves the store unchanged; no other key changes; afterwards a permitted `get` returns the non-empty value written, `has` is true and `ownKeys`, when it succeeds, lists the name |
| `Process.DeniedReadIsAbsent` | ext/node/polyfills/_process/process.ts:37-44 | when the query answers a state other than granted, a variable reads as absent in `get`, `has` and `getOwnPropertyDescriptor`, whatever the store holds |
| `Process.BadNameIsAbsent` | ext/node/polyfills/_process/process.ts:45-52 | once the query has answered, a name the native read rejects with a `TypeError` reads as absent in all three read traps and raises nothing |
| `Process.QueryFaultEscapes` | ext/node/polyfills/_process/process.ts:38-45 | whatever the permission query throws, a `TypeError` included, `get`, `has` and `getOwnPropertyDescriptor` throw unchanged |
| `Process.HasWithinOwnKeys` | ext/node/polyfills/_process/process.ts:79-94 | every name `has` reports is listed by a successful `ownKeys`; a stored name whose query answers other than granted is listed but not had |
| `Process.EmptyValueIsHadButNotDescribed` | ext/node/polyfills/_process/process.ts:67-94 | a permitted variable whose value is `""` is had, has no descriptor, and `get` yields `""` unless the name is an `Object.prototype` member |
| `Process.DescriptorAgreesWithGet` | ext/node/polyfills/_process/process.ts:67-89 | a descriptor exists exactly when `get` yields a non-empty string, and it carries that string |
| `Process.ReadTrapsThrowAlike` | ext/node/polyfills/_process/process.ts:45-52 | `get`, `has` and `getOwnPropertyDescriptor` either all throw the same error or none throws |

## Left out

- Symbol-keyed properties: the `get` trap forwards them to the target (lines 63-65). The model's keys are strings only.
- The `String(prop)` and `String(value)` conversions in the traps. Keys and values arrive as strings.
- `Process.Env.OwnKeys` gives the key set, not the order in which `Reflect.ownKeys` lists the keys.
- `chdir`, `cwd` and `nextTick` are plain aliases of filesystem and scheduler functions. Those functions are not part of this model.
- `version` and `versions` are constant data. Their later filling during bootstrap happens outside this file.
- The `_exiting` import is unused in this file.
- `Deno.permissions.querySync`, `Deno.env` and `Object.prototype` belong to the host runtime. They appear only as the fields described above. The model does not capture other validation rules of the native layer, or permission changes over time.
- The environment store is shared by the whole process. Each operation is modelled as one atomic step on a single-threaded store.

/**
 * The part of Node's `process` global that the Deno polyfill
 * `ext/node/polyfills/_process/process.ts` builds without streams:
 * the CPU-architecture name and the permission-masked `process.env` view.
 */
module Process {
  import opened Js

  /** `process.arch()`: the Node name of the CPU the binary was built for.
      `buildArch` is the build's own identifier (`core.build.arch`). */
  function Arch(buildArch: string): (r: Completion<string>)
    ensures r == Normal("x64") <==> buildArch == "x86_64"
    ensures r == Normal("arm64") <==> buildArch == "aarch64"
    ensures r.Throw? <==> buildArch != "x86_64" && buildArch != "aarch64"
    ensures r.Throw? ==> r.error == Error("unreachable")
  {
    if buildArch == "x86_64" then Normal("x64")
    else if buildArch == "aarch64" then Normal("arm64")
    else Throw(Error("unreachable"))
  }

  /** The `state` of a permission status for one environment variable. */
  datatype PermissionState = Granted | Denied | Prompt

  /** Names for which the native `Deno.env.get` throws a `TypeError`:
      those containing `=` or the NUL character. */
  predicate BadName(name: string)
  {
    '=' in name || '\0' in name
  }

  /**
   * The `process.env` proxy together with the native environment it is a
   * live view of. The traps read the store afresh on every call; only
   * `Set` changes it.
   *
   * The collaborators the polyfill calls but does not define are fields:
   *  - `querySync`: `Deno.permissions.querySync`, which may be missing
   *    (`None`); present, it gives the permission state of each variable,
   *    or throws;
   *  - `getFault`: an error the native `Deno.env.get` throws on a
   *    well-formed name, if any (besides the `TypeError` on a `BadName`);
   *  - `setFault`: an error the native `Deno.env.set` throws, if any;
   *  - `keysFault`: an error `Deno.env.toObject()` throws, if any;
   *  - `protoNames`: `Object.getOwnPropertyNames(Object.prototype)`,
   *    computed once when the module loads.
   */
  class Env {
    var store: map<string, string>
    const querySync: Option<string -> Completion<PermissionState>>
    const getFault: string -> Option<JsError>
    const setFault: (string, string) -> Option<JsError>
    const keysFault: Option<JsError>
    const protoNames: seq<string>

    constructor (store: map<string, string>, querySync: Option<string -> Completion<PermissionState>>,
                 getFault: string -> Option<JsError>, setFault: (string, string) -> Option<JsError>,
                 keysFault: Option<JsError>, protoNames: seq<string>)
      ensures this.store == store && this.querySync == querySync
      ensures this.getFault == getFault && this.setFault == setFault
      ensures this.keysFault == keysFault && this.protoNames == protoNames
    {
      this.store := store;
      this.querySync := querySync;
      this.getFault := getFault;
      this.setFault := setFault;
      this.keysFault := keysFault;
      this.protoNames := protoNames;
    }

    /** The permission state for reading `name`, or what the query throws;
        a missing `querySync` counts as granted. */
    function Permission(name: string): (p: Completion<PermissionState>)
    {
      match querySync
      case None => Normal(Granted)
      case Some(query) => query(name)
    }

    /** The native `Deno.env.get(name)`. */
    function NativeGet(name: string): (r: Completion<Option<string>>)
      reads this
    {
      if BadName(name) then Throw(TypeError("Key contains invalid characters"))
      else match getFault(name)
        case Some(e) => Throw(e)
        case None => Normal(if name in store then Some(store[name]) else None)
    }

    /** The query answers, with a state other than granted. */
    predicate Masked(name: string)
    {
      Permission(name).Normal? && Permission(name).value != Granted
    }

    /** Reading `name` is permitted and the native read succeeds. */
    predicate Readable(name: string)
    {
      Permission(name) == Normal(Granted) && !BadName(name) && getFault(name) == None
    }

    /** The error a read of `name` lets through: whatever the permission
        query throws (outside the `try`, so even a `TypeError`), or, with
        permission granted, a native error that is not a `TypeError`. */
    function ReadFault(name: string): (e: Option<JsError>)
    {
      match Permission(name)
      case Throw(e) => Some(e)
      case Normal(state) =>
        if state == Granted && !BadName(name) && getFault(name).Some? && !getFault(name).value.TypeError?
        then getFault(name)
        else None
    }

    /** `denoEnvGet(name)`: `Deno.env.get` behind the permission check,
        with `TypeError`s of the native read turned into `undefined`. */
    function DenoEnvGet(name: string): (r: Completion<Option<string>>)
      reads this
      ensures Permission(name).Throw? ==> r == Throw(Permission(name).error)
      ensures Masked(name) ==> r == Normal(None)
      ensures Permission(name) == Normal(Granted) && BadName(name) ==> r == Normal(None)
      ensures Readable(name) ==> r == Normal(if name in store then Some(store[name]) else None)
      ensures r.Throw? <==> ReadFault(name).Some?
      ensures r.Throw? ==> r.error == ReadFault(name).value
      ensures r.Normal? && r.value.Some? ==> Readable(name) && name in store && r.value.value == store[name]
    {
      match Permission(name)
      case Throw(e) => Throw(e)
      case Normal(perm) =>
        if perm != Granted then Normal(None)
        else match NativeGet(name)
          case Normal(v) => Normal(v)
          case Throw(e) => if e.TypeError? then Normal(None) else Throw(e)
    }

    /** The `get` trap, for a string key. */
    function Get(prop: string): (r: Completion<JsValue>)
      reads this
      ensures Readable(prop) && prop in store && store[prop] != "" ==> r == Normal(Str(store[prop]))
      ensures r.Normal? && r.value.Str? && r.value.s != "" ==>
                Readable(prop) && prop in store && store[prop] == r.value.s
      ensures r.Normal? && !(Readable(prop) && prop in store && store[prop] != "") ==>
                r.value == if prop in protoNames then Inherited(prop)
                           else if Readable(prop) && prop in store then Str("")
                           else Undefined
      ensures r.Throw? <==> ReadFault(prop).Some?
      ensures r.Throw? ==> r.error == ReadFault(prop).value
    {
      match DenoEnvGet(prop)
      case Throw(e) => Throw(e)
      case Normal(envValue) =>
        if envValue.Some? && envValue.value != "" then Normal(Str(envValue.value))
        else if Includes(protoNames, prop) then Normal(Inherited(prop))
        else Normal(if envValue.Some? then Str(envValue.value) else Undefined)
    }

    /** The `ownKeys` trap: the keys of `Deno.env.toObject()`. */
    function OwnKeys(): (r: Completion<set<string>>)
      reads this
      ensures r.Throw? <==> keysFault.Some?
      ensures r.Throw? ==> r.error == keysFault.value
      ensures r.Normal? ==> forall name :: name in r.value <==> name in store
    {
      match keysFault
      case Some(e) => Throw(e)
      case None => Normal(store.Keys)
    }

    /** The `getOwnPropertyDescriptor` trap. */
    function GetOwnPropertyDescriptor(name: string): (r: Completion<Option<PropertyDescriptor>>)
      reads this
      ensures r.Normal? && r.value.Some? <==> Readable(name) && name in store && store[name] != ""
      ensures r.Normal? && r.value.Some? ==> r.value.value == PropertyDescriptor(true, true, store[name])
      ensures r.Throw? <==> ReadFault(name).Some?
      ensures r.Throw? ==> r.error == ReadFault(name).value
    {
      match DenoEnvGet(name)
      case Throw(e) => Throw(e)
      case Normal(value) =>
        if value.Some? && value.value != "" then Normal(Some(PropertyDescriptor(true, true, value.value)))
        else Normal(None)
    }

    /** The `has` trap: whether `denoEnvGet` yields a string, empty or not. */
    function Has(prop: string): (r: Completion<bool>)
      reads this
      ensures r == Normal(true) <==> Readable(prop) && prop in store
      ensures r.Throw? <==> ReadFault(prop).Some?
      ensures r.Throw? ==> r.error == ReadFault(prop).value
    {
      match DenoEnvGet(prop)
      case Throw(e) => Throw(e)
      case Normal(v) => Normal(v.Some?)
    }

    /** The `set` trap: `Deno.env.set(prop, value)`, then report success.
        No permission is consulted here. */
    method Set(prop: string, value: string) returns (r: Completion<bool>)
      modifies this
      ensures r.Normal? <==> setFault(prop, value) == None
      ensures r.Normal? ==> r.value && store == old(store)[prop := value]
      ensures r.Throw? ==> r.error == setFault(prop, value).value && store == old(store)
      ensures forall name :: name != prop ==> (name in store <==> name in old(store))
      ensures forall name :: name != prop && name in store ==> store[name] == old(store)[name]
      ensures r.Normal? && Readable(prop) && value != "" ==> Get(prop) == Normal(Str(value))
      ensures r.Normal? && Readable(prop) ==> Has(prop) == Normal(true)
      ensures r.Normal? && OwnKeys().Normal? ==> prop in OwnKeys().value
    {
      match setFault(prop, value)
      case Some(e) =>
        r := Throw(e);
      case None =>
        store := store[prop := value];
        r := Normal(true);
    }
  }

  /** Whatever the store holds, a variable whose read permission is not
      granted reads as absent: `get` falls back to the inherited member or
      `undefined`, `has` is false and there is no descriptor. */
  lemma DeniedReadIsAbsent(env: Env, name: string)
    requires env.Masked(name)
    ensures env.Get(name) == Normal(if name in env.protoNames then Inherited(name) else Undefined)
    ensures env.Has(name) == Normal(false)
    ensures env.GetOwnPropertyDescriptor(name) == Normal(None)
  {
  }

  /** Once the permission query has answered, a name the native layer
      rejects with a `TypeError` reads as absent and raises nothing. */
  lemma BadNameIsAbsent(env: Env, name: string)
    requires BadName(name) && env.Permission(name).Normal?
    ensures env.Get(name) == Normal(if name in env.protoNames then Inherited(name) else Undefined)
    ensures env.Has(name) == Normal(false)
    ensures env.GetOwnPropertyDescriptor(name) == Normal(None)
  {
  }

  /** The permission query runs outside the `try`: whatever it throws,
      a `TypeError` included, escapes every read trap unchanged. */
  lemma QueryFaultEscapes(env: Env, name: string)
    requires env.Permission(name).Throw?
    ensures env.Get(name) == Throw(env.Permission(name).error)
    ensures env.Has(name) == Throw(env.Permission(name).error)
    ensures env.GetOwnPropertyDescriptor(name) == Throw(env.Permission(name).error)
  {
  }

  /** Every name `has` reports is listed by `ownKeys`, but not the other
      way round: a stored variable without read permission is listed yet
      not had. */
  lemma HasWithinOwnKeys(env: Env, name: string)
    ensures env.Has(name) == Normal(true) && env.OwnKeys().Normal? ==> name in env.OwnKeys().value
    ensures name in env.store && env.Masked(name) && env.keysFault == None ==>
              env.OwnKeys().Normal? && name in env.OwnKeys().value && env.Has(name) == Normal(false)
  {
  }

  /** A variable set to the empty string is had, but has no descriptor, and
      `get` yields `""` unless the name is an `Object.prototype` member. */
  lemma EmptyValueIsHadButNotDescribed(env: Env, name: string)
    requires env.Readable(name) && name in env.store && env.store[name] == ""
    ensures env.Has(name) == Normal(true)
    ensures env.GetOwnPropertyDescriptor(name) == Normal(None)
    ensures env.Get(name) == Normal(if name in env.protoNames then Inherited(name) else Str(""))
  {
  }

  /** A descriptor exists exactly when `get` yields a non-empty string, and
      it carries that string. */
  lemma DescriptorAgreesWithGet(env: Env, name: string)
    ensures env.GetOwnPropertyDescriptor(name).Normal? && env.GetOwnPropertyDescriptor(name).value.Some? <==>
              env.Get(name).Normal? && env.Get(name).value.Str? && env.Get(name).value.s != ""
    ensures env.GetOwnPropertyDescriptor(name).Normal? && env.GetOwnPropertyDescriptor(name).value.Some? ==>
              env.Get(name) == Normal(Str(env.GetOwnPropertyDescriptor(name).value.value.value))
  {
  }

  /** The read traps either all throw, with the same error, or none does. */
  lemma ReadTrapsThrowAlike(env: Env, name: string)
    ensures env.Get(name).Throw? <==> env.Has(name).Throw?
    ensures env.Has(name).Throw? <==> env.GetOwnPropertyDescriptor(name).Throw?
    ensures env.Get(name).Throw? ==>
              env.Get(name).error == env.Has(name).error == env.GetOwnPropertyDescriptor(name).error
  {
  }
}

/**
 * Plugin registration: `register` (src/index.js:23-46) and the middleware that
 * `PugClientTemplate.init` returns (src/index.js:15-21).
 */
module Plugins {
  import opened Wrappers
  import opened Ast
  import opened Lexer

  /** An element of `res.locals.plugins`. */
  datatype Plugin =
    | ClientTemplatePlugin(lexInclude: string, expressionTokens: seq<string>, postCodeGenIdentity: bool)
      // the descriptor built at src/index.js:34-45
    | Foreign(id: string)  // a plugin some other module put there

  /** The value found at `res.locals.plugins`. */
  datatype Slot =
    | Undefined
    | Array(items: seq<Plugin>)
    | NotArray  // any value for which `Array.isArray` is false

  /** The descriptor `register` pushes: the lexer hook and the two expression-token handlers. */
  const Descriptor := ClientTemplatePlugin("handleLexClientTemplate", [TemplateKeyword, RuntimeKeyword], true)

  /** The list in place after `register` ran, or the error it threw. */
  function Registered(slot: Slot): (r: Result<seq<Plugin>, Error>)
    ensures r.Err? <==> slot.NotArray?
    ensures r.Err? ==> r.error == PluginsInUse
    ensures r.Ok? ==> |r.value| == (if slot.Array? then |slot.items| else 0) + 1
    ensures r.Ok? && slot.Array? ==> r.value[..|slot.items|] == slot.items
    ensures r.Ok? ==> r.value[|r.value| - 1] == Descriptor
  {
    match slot
    case NotArray => Err(PluginsInUse)
    case Undefined => Ok([Descriptor])
    case Array(items) => Ok(items + [Descriptor])
  }

  /** `res.locals`, of which the plugin touches only `plugins`. */
  class Locals {
    var plugins: Slot

    constructor(slot: Slot)
      ensures plugins == slot
    {
      plugins := slot;
    }

    /**
     * `register(res)`: throw when `plugins` is set to something that is not an array;
     * otherwise create the array if it is missing and push one descriptor onto it.
     */
    method Register() returns (r: Outcome<Error>)
      modifies this
      ensures old(plugins).NotArray? ==> r == Fail(PluginsInUse) && plugins == old(plugins)
      ensures !old(plugins).NotArray? ==> r == Pass && plugins == Array(Registered(old(plugins)).value)
    {
      if plugins.NotArray? {
        return Fail(PluginsInUse);
      }
      if plugins.Undefined? {
        plugins := Array([]);
      }
      plugins := Array(plugins.items + [Descriptor]);
      r := Pass;
    }

    /**
     * The middleware `init` returns: it registers the plugin on the response, then
     * calls `next`, which is therefore called exactly when registration did not throw.
     */
    method Middleware() returns (nextCalled: bool, r: Outcome<Error>)
      modifies this
      ensures nextCalled <==> r.Pass?
      ensures r.Fail? <==> old(plugins).NotArray?
      ensures r.Pass? ==> plugins == Array(Registered(old(plugins)).value)
      ensures r.Fail? ==> plugins == old(plugins)
    {
      r := Register();
      nextCalled := r.Pass?;
    }
  }

  /** A middleware run `k` times on the same response leaves `k` descriptors after the earlier plugins. */
  lemma {:induction false} RegisterRepeated(items: seq<Plugin>, k: nat)
    ensures Registered(Array(items)).Ok?
    ensures k > 0 ==> RegisterTimes(Array(items), k) == Array(items + seq(k, _ => Descriptor))
  {
    if k > 1 {
      RegisterRepeated(items, k - 1);
      assert items + seq(k - 1, _ => Descriptor) + [Descriptor] == items + seq(k, _ => Descriptor);
    }
  }

  /** The slot after `k` registrations, the first of which succeeded. */
  function RegisterTimes(slot: Slot, k: nat): Slot
    requires !slot.NotArray?
  {
    if k == 0 then slot
    else
      var prev := RegisterTimes(slot, k - 1);
      match prev
      case NotArray => prev
      case _ => Array(Registered(prev).value)
  }
}

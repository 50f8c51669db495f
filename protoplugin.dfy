/** `pkg/protoplugin`: the registry of backends by name, and the dispatch of one protoc
    request to the backend its parameter names. A failure of the dispatch is not an exit
    status: it goes back to protoc as the error of an empty response. */
module Protoplugin {
  import opened Wrappers
  import opened Text
  import Parameter
  import opened Descriptor
  import opened Backend
  import Entrypoint
  import Methods
  import Config
  import Scaffold
  import Gateway

  /** The backends that implement `Interface`. */
  datatype Plugin = EntrypointPlugin | MethodsPlugin | ConfigPlugin | ScaffoldPlugin | GatewayPlugin

  /** `Interface.Do` of each backend: the function its `Do` method is proved to compute. */
  function PluginOutput(p: Plugin, env: Env, stuff: Parameter.Stuff, req: Request): Result<Response, string> {
    match p
    case EntrypointPlugin => Entrypoint.Output(env, stuff, req)
    case MethodsPlugin => Methods.Output(env, stuff, req)
    case ConfigPlugin => Config.Output(env, stuff, req)
    case ScaffoldPlugin => Scaffold.Output(stuff, req)
    case GatewayPlugin => Gateway.Output(env, stuff, req)
  }

  /** The package-level `plugins` map. */
  class Registry {
    var plugins: map<string, Plugin>

    constructor ()
      ensures plugins == map[]
    {
      plugins := map[];
    }

    /** `Register`: a second registration of a name is fatal, so a name is registered once. */
    method Register(name: string, thing: Plugin)
      requires name !in plugins
      modifies this
      ensures plugins == old(plugins)[name := thing]
      ensures Get(name) == Some(thing)
      ensures forall n :: n != name ==> Get(n) == old(Get(n))
    {
      plugins := plugins[name := thing];
    }

    /** `Get`: the plugin registered under `name`, or none. */
    function Get(name: string): (r: Option<Plugin>)
      reads this
      ensures r.Some? <==> name in plugins
      ensures r.Some? ==> r.value == plugins[name]
    {
      if name in plugins then Some(plugins[name]) else None
    }
  }

  /** The registry once the `init` functions of the five enabled backends have run. */
  function Builtin(): map<string, Plugin> {
    map[
      "config" := ConfigPlugin,
      "entrypoint" := EntrypointPlugin,
      "gateway" := GatewayPlugin,
      "methods" := MethodsPlugin,
      "scaffold" := ScaffoldPlugin]
  }

  /** The `init` functions of the enabled backends, in the order `main` imports them. */
  method RegisterBuiltin() returns (reg: Registry)
    ensures fresh(reg)
    ensures reg.plugins == Builtin()
  {
    reg := new Registry();
    reg.Register("config", ConfigPlugin);
    reg.Register("entrypoint", EntrypointPlugin);
    reg.Register("gateway", GatewayPlugin);
    reg.Register("methods", MethodsPlugin);
    reg.Register("scaffold", ScaffoldPlugin);
  }

  /** The error for a name nobody registered: `Unrecognized plugin %q`. */
  function Unrecognized(name: string): string {
    "Unrecognized plugin " + GoQuote(name)
  }

  /** The result of `dispatch` with the registry `plugins`: the decoding error of the
      parameter, the unknown name, or what the named plugin answers. */
  function DispatchOutput(env: Env, plugins: map<string, Plugin>, req: Request): Result<Response, string> {
    match Parameter.From(req.parameter)
    case Err(e) => Err(Parameter.Message(e))
    case Ok(stuff) =>
      if stuff.name in plugins then PluginOutput(plugins[stuff.name], env, stuff, req)
      else Err(Unrecognized(stuff.name))
  }

  /** What `Run` writes back: the response, or an empty one carrying the error. */
  function RunOutput(env: Env, plugins: map<string, Plugin>, req: Request): Response {
    match DispatchOutput(env, plugins, req)
    case Err(m) => Response(Some(m), [])
    case Ok(resp) => resp
  }

  method Dispatch(reg: Registry, env: Env, req: Request) returns (r: Result<Response, string>)
    ensures r == DispatchOutput(env, reg.plugins, req)
  {
    var decoded := Parameter.From(req.parameter);
    if decoded.Err? {
      return Err(Parameter.Message(decoded.error));
    }
    var stuff := decoded.value;
    var plugin := reg.Get(stuff.name);
    if plugin.None? {
      return Err("Unrecognized plugin " + GoQuote(stuff.name));
    }
    r := PluginOutput(plugin.value, env, stuff, req);
  }

  /** `Run` after the request is read and before the response is written. */
  method Run(reg: Registry, env: Env, req: Request) returns (resp: Response)
    ensures resp == RunOutput(env, reg.plugins, req)
  {
    var r := Dispatch(reg, env, req);
    if r.Err? {
      resp := Response(Some(r.error), []);
    } else {
      resp := r.value;
    }
  }

  // ---------------------------------------------------------------------------
  // Properties

  /** Dispatch succeeds only with a parameter that decodes to a registered name; a
      parameter that does not decode is reported and no plugin runs; an unknown name is
      reported; otherwise the answer is the named plugin's on the decoded parameter and the
      unchanged request. */
  lemma DispatchCases(env: Env, plugins: map<string, Plugin>, req: Request)
    ensures var r := DispatchOutput(env, plugins, req); var d := Parameter.From(req.parameter);
      && (d.Err? ==> r == Err(Parameter.Message(d.error)))
      && (d.Ok? && d.value.name !in plugins ==> r == Err(Unrecognized(d.value.name)))
      && (d.Ok? && d.value.name in plugins ==> r == PluginOutput(plugins[d.value.name], env, d.value, req))
      && (r.Ok? ==> d.Ok? && d.value.name in plugins)
  {
  }

  /** A plain name is quoted as it is. */
  lemma UnrecognizedPlain(name: string)
    requires forall i :: 0 <= i < |name| ==> QuotePrintable(name[i])
    ensures Unrecognized(name) == "Unrecognized plugin \"" + name + "\""
  {
    GoQuotePlain(name);
    assert "Unrecognized plugin " + ("\"" + name + "\"") == "Unrecognized plugin \"" + name + "\"";
  }

  /** A request whose parameter is the encoding of `stuff`, as every `go:generate` line
      writes it, reaches the plugin `stuff` names with `stuff` itself. */
  lemma DispatchEncoded(env: Env, plugins: map<string, Plugin>, req: Request, stuff: Parameter.Stuff)
    requires req.parameter == Parameter.Encode(stuff)
    ensures stuff.name in plugins ==> DispatchOutput(env, plugins, req) == PluginOutput(plugins[stuff.name], env, stuff, req)
    ensures stuff.name !in plugins ==> DispatchOutput(env, plugins, req) == Err(Unrecognized(stuff.name))
  {
    Parameter.FromEncode(stuff);
  }

  /** The response carries an error exactly when dispatch failed, and then no file. */
  lemma RunError(env: Env, plugins: map<string, Plugin>, req: Request)
    ensures var resp := RunOutput(env, plugins, req); var r := DispatchOutput(env, plugins, req);
      && (r.Err? ==> resp.error == Some(r.error) && resp.files == [])
      && (r.Ok? ==> resp == r.value)
  {
  }

  /** Every dispatch that reaches a backend answers without an error of its own in the
      response, so the response carries an error exactly when dispatch failed. */
  lemma RunErrorIff(env: Env, plugins: map<string, Plugin>, req: Request)
    ensures RunOutput(env, plugins, req).error.Some? <==> DispatchOutput(env, plugins, req).Err?
  {
    var d := Parameter.From(req.parameter);
    if d.Ok? && d.value.name in plugins {
      var p, stuff := plugins[d.value.name], d.value;
      match p
      case EntrypointPlugin =>
      case MethodsPlugin =>
      case ConfigPlugin =>
      case ScaffoldPlugin =>
      case GatewayPlugin =>
    }
  }

  /** The five enabled backends answer to their names; the sample backend, which `main`
      does not import, is unknown. */
  lemma BuiltinNames()
    ensures Builtin().Keys == {"config", "entrypoint", "gateway", "methods", "scaffold"}
    ensures Builtin()["gateway"] == GatewayPlugin && Builtin()["scaffold"] == ScaffoldPlugin
    ensures "Matt" !in Builtin()
  {
  }

  /** A parameter without a name reaches no built-in backend. */
  lemma EmptyNameUnrecognized(env: Env, req: Request)
    requires Parameter.From(req.parameter).Ok? && Parameter.From(req.parameter).value.name == ""
    ensures DispatchOutput(env, Builtin(), req) == Err("Unrecognized plugin \"\"")
  {
    assert "" !in Builtin();
    EmptyQuoted();
  }

  lemma EmptyQuoted()
    ensures Unrecognized("") == "Unrecognized plugin \"\""
  {
    UnrecognizedPlain("");
  }
}

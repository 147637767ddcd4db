/**
 * The run-time state of src/index.js and the code that changes it: the compile
 * wrappers (src/index.js:202-246), `parseClientTemplate` (111-176),
 * `parsePugRuntime` (62-109) and the patched `visit` and `visitText` (249-284).
 *
 * pug itself is not modelled. What a call of the original `pug.compile` or
 * `pug.compileClientWithDependenciesTracked` does is given as a `Run`: the hook calls
 * it makes back into the plugin, in order, and what it finally returns or throws.
 */
module ClientTemplate {
  import opened Wrappers
  import opened JsStrings
  import opened Ast
  import opened Registry
  import opened TemplateTag
  import opened RuntimeScript
  import opened ServerCode

  /** Compile options, as far as the plugin reads or builds them. */
  datatype Options = Options(
    compileDebug: Option<bool>,
    inlineRuntimeFunctions: Option<bool>,
    name: Option<string>,
    filename: Option<string>,
    shared: map<string, string>)  // every other option, by name

  /** `{}`. */
  const EmptyOptions := Options(None, None, None, None, map[])

  /** The options copied from the captured `compileOptions` into a nested client compile. */
  const PassedThrough: set<string> :=
    {"pretty", "globals", "self", "filters", "filterOptions", "filterAliases", "plugins"}

  /** `options || {}`. */
  function OrEmpty(opts: Option<Options>): Options
  {
    match opts
    case None => EmptyOptions
    case Some(o) => o
  }

  /** The options object built for `pug.compileClient` at src/index.js:154-166. */
  function ClientOptions(outer: Options, name: string, filename: Option<string>): (r: Options)
    ensures r.compileDebug == Some(false) && r.inlineRuntimeFunctions == Some(false)
    ensures r.name == Some(name) && r.filename == filename
    ensures forall k :: k in r.shared <==> k in outer.shared && k in PassedThrough
    ensures forall k :: k in r.shared ==> r.shared[k] == outer.shared[k]
  {
    Options(Some(false), Some(false), Some(name), filename,
            map k | k in outer.shared && k in PassedThrough :: outer.shared[k])
  }

  /** A call one of the plugin's code-generator hooks makes on the generator. */
  datatype GenCall =
    | Push(code: string)                                   // raw code appended to the buffer
    | BufferExpression(src: string)                        // an expression whose value is buffered
    | OrigVisit(node: Option<Node>, parent: Option<Node>)  // the original `visit`
    | OrigVisitText(text: Node)                            // the original `visitText`

  /** pug's `CodeGenerator`, reduced to the calls the hooks make on it. */
  class CodeGenerator {
    var log: seq<GenCall>

    constructor()
      ensures log == []
    {
      log := [];
    }
  }

  /** One call pug makes into the plugin while compiling. */
  datatype Event =
    | ParseTemplate(attrs: seq<Attr>, blockVals: seq<string>, filename: Option<string>, body: Run)
      // `parseClientTemplate`: the tag's attributes, the `val`s of its text block, and what
      // the nested `pug.compileClient` of that text does
    | ParseRuntime(sources: map<string, string>)     // `parsePugRuntime`
    | VisitNode(node: Option<Node>, parent: Option<Node>)  // `CodeGenerator.prototype.visit`
    | VisitTextNode(text: Node)                      // `CodeGenerator.prototype.visitText`

  /** What one call of an original pug compile entry point does. */
  datatype Run = Run(events: seq<Event>, outcome: Result<string, Error>)

  /** A run that declares nothing itself. */
  predicate NoTemplates(run: Run)
  {
    forall i :: 0 <= i < |run.events| ==> !run.events[i].ParseTemplate?
  }

  /**
   * A run whose only calls into the plugin are to hooks that cannot throw: everything
   * but a `pugtemplate` tag to parse and a reference to visit.
   */
  predicate QuietHooks(run: Run)
  {
    forall i :: 0 <= i < |run.events| ==>
      run.events[i].ParseRuntime? || run.events[i].VisitNode? ||
      (run.events[i].VisitTextNode? && !run.events[i].text.TemplateRef?)
  }

  /** The condition of src/index.js:251 under which `visit` builds the server preamble. */
  predicate ServerHelpersDue(node: Option<Node>, level: nat, flag: bool)
  {
    node.Some? && node.value.Type() != "" && node.value.Type() != "Block" && level == 1 && flag
  }

  /** What `visit` pushes before calling the original: the preamble, when the cache has entries. */
  function PreamblePush(c: seq<Entry>): seq<GenCall>
  {
    if c == [] then [] else [Push(Preamble(c) + ";")]
  }

  /** The module-level variables of src/index.js:8-11. */
  class ModuleState {
    var cache: seq<Entry>            // templateCache
    var options: Option<Options>     // compileOptions (None is null)
    var level: nat                   // compile_level
    var outputServerHelpers: bool
    ghost var preamblesBuilt: nat    // how many times `visit` has built the server preamble

    ghost predicate Valid()
      reads this
    {
      && DistinctNames(cache)
      && (options.None? <==> level == 0)
      && (level == 0 ==> cache == [])
      && preamblesBuilt <= 1
      && (outputServerHelpers <==> preamblesBuilt == 0)
    }

    /** The state when the module is first loaded. */
    constructor()
      ensures Valid()
      ensures cache == [] && options == None && level == 0 && outputServerHelpers
    {
      cache := [];
      options := None;
      level := 0;
      outputServerHelpers := true;
      preamblesBuilt := 0;
    }

    /** The first two lines of each wrapper: capture options at depth 0, then go one deeper. */
    method Enter(opts: Option<Options>)
      requires Valid()
      modifies this
      ensures Valid()
      ensures level == old(level) + 1
      ensures old(level) == 0 ==> options == Some(OrEmpty(opts))
      ensures old(level) > 0 ==> options == old(options)
      ensures cache == old(cache)
      ensures outputServerHelpers == old(outputServerHelpers) && preamblesBuilt == old(preamblesBuilt)
    {
      if level == 0 {
        options := Some(OrEmpty(opts));
      }
      level := level + 1;
    }

    /**
     * The tail of each wrapper: go one level up; back at depth 0, drop the options and
     * the cache; then throw the caught error or return the result, both unchanged.
     */
    method Exit(outcome: Result<string, Error>) returns (r: Result<string, Error>)
      requires Valid() && level > 0
      modifies this
      ensures Valid()
      ensures level == old(level) - 1
      ensures level == 0 ==> options == None && cache == []
      ensures level > 0 ==> options == old(options) && cache == old(cache)
      ensures outputServerHelpers == old(outputServerHelpers) && preamblesBuilt == old(preamblesBuilt)
      ensures r == outcome
    {
      level := level - 1;
      if level == 0 {
        options := None;
        cache := [];
      }
      r := outcome;
    }

    /**
     * The patched `pug.compile`. `hookError` is the error a hook of the plugin threw
     * inside the run, if one did; it comes back out unchanged.
     */
    method Compile(str: string, opts: Option<Options>, run: Run)
      returns (r: Result<string, Error>, ghost hookError: Option<Error>)
      requires Valid()
      modifies this
      decreases run, 2
      ensures Valid()
      ensures level == old(level)
      ensures old(level) == 0 ==> options == None && cache == []
      ensures old(level) > 0 ==> options == old(options) && Names(old(cache)) <= Names(cache)
      ensures old(level) > 0 && NoTemplates(run) ==> cache == old(cache)
      ensures old(level) > 0 ==> old(cache) <= cache
      ensures outputServerHelpers ==> old(outputServerHelpers)
      ensures old(level) > 0 ==> outputServerHelpers == old(outputServerHelpers)
      ensures hookError.None? ==> r == run.outcome
      ensures hookError.Some? ==> r == Err(hookError.value)
      ensures hookError.Some? ==> !QuietHooks(run)
    {
      Enter(opts);
      var inner;
      inner, hookError := HostCompile(run);
      r := Exit(inner);
    }

    /** The patched `pug.compileClientWithDependenciesTracked`; the same wrapper around the other entry point. */
    method CompileClientWithDependenciesTracked(str: string, opts: Option<Options>, run: Run)
      returns (r: Result<string, Error>, ghost hookError: Option<Error>)
      requires Valid()
      modifies this
      decreases run, 2
      ensures Valid()
      ensures level == old(level)
      ensures old(level) == 0 ==> options == None && cache == []
      ensures old(level) > 0 ==> options == old(options) && Names(old(cache)) <= Names(cache)
      ensures old(level) > 0 && NoTemplates(run) ==> cache == old(cache)
      ensures old(level) > 0 ==> old(cache) <= cache
      ensures outputServerHelpers ==> old(outputServerHelpers)
      ensures old(level) > 0 ==> outputServerHelpers == old(outputServerHelpers)
      ensures hookError.None? ==> r == run.outcome
      ensures hookError.Some? ==> r == Err(hookError.value)
      ensures hookError.Some? ==> !QuietHooks(run)
    {
      Enter(opts);
      var inner;
      inner, hookError := HostCompile(run);
      r := Exit(inner);
    }

    /**
     * The original entry point, as far as the plugin can see it: it makes the calls of
     * `run` into the plugin against one fresh code generator, stops at the first one
     * that throws (that error is `hookError`), and otherwise returns or throws what
     * `run` says.
     */
    method HostCompile(run: Run) returns (r: Result<string, Error>, ghost hookError: Option<Error>)
      requires Valid() && level > 0
      modifies this
      decreases run, 1
      ensures Valid()
      ensures level == old(level) && options == old(options)
      ensures Names(old(cache)) <= Names(cache)
      ensures old(level) > 1 && NoTemplates(run) ==> cache == old(cache)
      ensures old(level) > 1 ==> old(cache) <= cache
      ensures outputServerHelpers ==> old(outputServerHelpers)
      ensures old(level) > 1 ==> outputServerHelpers == old(outputServerHelpers)
      ensures hookError.None? ==> r == run.outcome
      ensures hookError.Some? ==> r == Err(hookError.value)
      ensures hookError.Some? ==> !QuietHooks(run)
    {
      var gen := new CodeGenerator();
      var i := 0;
      while i < |run.events|
        invariant 0 <= i <= |run.events|
        decreases |run.events| - i
        invariant Valid()
        invariant level == old(level) && options == old(options)
        invariant Names(old(cache)) <= Names(cache)
        invariant old(level) > 1 && NoTemplates(run) ==> cache == old(cache)
        invariant old(level) > 1 ==> old(cache) <= cache
        invariant outputServerHelpers ==> old(outputServerHelpers)
        invariant old(level) > 1 ==> outputServerHelpers == old(outputServerHelpers)
      {
        ghost var before := cache;
        var thrown := HandleEvent(gen, run.events[i]);
        if thrown.Some? {
          assert !(run.events[i].ParseRuntime? || run.events[i].VisitNode? ||
                   (run.events[i].VisitTextNode? && !run.events[i].text.TemplateRef?));
          r, hookError := Err(thrown.value), thrown;
          return;
        }
        assert Names(old(cache)) <= Names(cache) by {
          assert Names(before) == Names(cache)[..|Names(before)|];
          assert Names(old(cache)) == Names(before)[..|Names(old(cache))|];
        }
        i := i + 1;
      }
      r, hookError := run.outcome, None;
    }

    /** One call pug makes into the plugin, on the generator of the current compile; the error it throws, if any. */
    method HandleEvent(gen: CodeGenerator, ev: Event) returns (thrown: Option<Error>)
      requires Valid() && level > 0
      modifies this, gen
      decreases ev, 5
      ensures Valid()
      ensures level == old(level) && options == old(options)
      ensures Names(old(cache)) <= Names(cache)
      ensures old(level) > 1 && !ev.ParseTemplate? ==> cache == old(cache)
      ensures old(level) > 1 || !ev.VisitNode? ==> old(cache) <= cache
      ensures outputServerHelpers ==> old(outputServerHelpers)
      ensures old(level) > 1 ==> outputServerHelpers == old(outputServerHelpers)
      ensures thrown.Some? ==> ev.ParseTemplate? || (ev.VisitTextNode? && ev.text.TemplateRef?)
    {
      thrown := None;
      match ev {
        case ParseTemplate(attrs, blockVals, filename, body) =>
          var res;
          ghost var nested;
          res, nested := ParseClientTemplate(attrs, blockVals, filename, body);
          if res.Err? {
            thrown := Some(res.error);
          }
        case ParseRuntime(sources) =>
          var script := ParsePugRuntime(sources);
        case VisitNode(node, parent) =>
          Visit(gen, node, parent);
        case VisitTextNode(node) =>
          var o := VisitText(gen, node);
          if o.Fail? {
            thrown := Some(o.error);
          }
      }
    }

    /**
     * `parseClientTemplate`: the checks of src/index.js:119-149 (the decision `Classify`
     * takes), then, for a declaration, the nested client compile of the tag's text and
     * the new cache entry. `nested` is the error a hook threw inside that nested compile,
     * if one did.
     */
    method ParseClientTemplate(attrs: seq<Attr>, blockVals: seq<string>, filename: Option<string>, body: Run)
      returns (r: Result<Node, Error>, ghost nested: Option<Error>)
      requires Valid()
      modifies this
      decreases body, 4
      ensures Valid()
      ensures level == old(level) && options == old(options)
      ensures outputServerHelpers == old(outputServerHelpers)
      ensures Names(old(cache)) <= Names(cache)
      ensures old(cache) <= cache
      ensures Classify(attrs, old(cache)).Reject? ==>
        r == Err(Classify(attrs, old(cache)).error) && cache == old(cache) && nested.None?
      ensures Classify(attrs, old(cache)).Reference? ==>
        r == Ok(TemplateRef(Classify(attrs, old(cache)).name, Classify(attrs, old(cache)).data)) &&
        cache == old(cache) && nested.None?
      ensures Classify(attrs, old(cache)).Declare? && old(options).None? ==>
        r == Err(CannotRead("null", "pretty")) &&
        cache == old(cache) && nested.None?
      ensures Classify(attrs, old(cache)).Declare? && old(options).Some? ==>
        (r == Ok(TemplateDecl) <==> nested.None? && body.outcome.Ok?)
      ensures nested.Some? ==> r == Err(nested.value) && !QuietHooks(body)
      ensures Classify(attrs, old(cache)).Declare? && old(options).Some? && nested.None? && body.outcome.Err? ==>
        r == Err(body.outcome.error)
      ensures r.Ok? && Classify(attrs, old(cache)).Declare? ==>
        r == Ok(TemplateDecl) &&
        Lookup(cache, Classify(attrs, old(cache)).name) ==
          Some(Declared(Classify(attrs, old(cache)), body.outcome.value))
      ensures r.Ok? && Classify(attrs, old(cache)).Declare? && NoTemplates(body) ==>
        cache == old(cache) + [Declared(Classify(attrs, old(cache)), body.outcome.value)]
    {
      nested := None;
      var action := Classify(attrs, cache);
      match action {
        case Reject(e) =>
          return Err(e), None;
        case Reference(name, data) =>
          return Ok(TemplateRef(name, data)), None;
        case Declare(name, objectName) =>
          r, nested := DeclareTemplate(name, objectName, blockVals, filename, body);
      }
    }

    /**
     * The declaration branch of `parseClientTemplate` (src/index.js:151-168): the tag's
     * text is compiled through the wrapped client compile with the captured options, and
     * the resulting function is stored under the template's name.
     */
    method DeclareTemplate(name: string, objectName: string, blockVals: seq<string>,
                           filename: Option<string>, body: Run)
      returns (r: Result<Node, Error>, ghost nested: Option<Error>)
      requires Valid()
      modifies this
      decreases body, 3
      ensures Valid()
      ensures level == old(level) && options == old(options)
      ensures outputServerHelpers == old(outputServerHelpers)
      ensures Names(old(cache)) <= Names(cache)
      ensures !Has(old(cache), name) ==> old(cache) <= cache
      ensures old(options).None? ==> r == Err(CannotRead("null", "pretty")) && cache == old(cache) && nested.None?
      ensures old(options).Some? ==> (r == Ok(TemplateDecl) <==> nested.None? && body.outcome.Ok?)
      ensures nested.Some? ==> r == Err(nested.value) && !QuietHooks(body)
      ensures old(options).Some? && nested.None? && body.outcome.Err? ==> r == Err(body.outcome.error)
      ensures r.Ok? ==>
        r == Ok(TemplateDecl) && Lookup(cache, name) == Some(Entry(name, body.outcome.value, objectName, false))
      ensures r.Ok? && NoTemplates(body) && !Has(old(cache), name) ==>
        cache == old(cache) + [Entry(name, body.outcome.value, objectName, false)]
    {
      var templateText := Concat(blockVals);
      if options.None? {
        return Err(CannotRead("null", "pretty")), None;
      }
      var clientOptions := ClientOptions(options.value, name, filename);
      var fnBody;
      fnBody, nested := CompileClientWithDependenciesTracked(templateText, Some(clientOptions), body);
      if fnBody.Err? {
        r := Err(fnBody.error);
        return;
      }
      var entry := Entry(name, fnBody.value, objectName, false);
      ghost var mid := cache;
      if !Has(old(cache), name) {
        PutKeepsPrefix(old(cache), cache, entry);
      }
      PutFacts(cache, entry);
      cache := Put(cache, entry);
      assert Names(old(cache)) <= Names(cache) by {
        assert Names(mid) == Names(cache)[..|Names(mid)|];
        assert Names(old(cache)) == Names(mid)[..|Names(old(cache))|];
      }
      r := Ok(TemplateDecl);
    }

    /** `parsePugRuntime`: the `<script>` tag holding the runtime helpers and every cached template. */
    method ParsePugRuntime(sources: map<string, string>) returns (node: Node)
      ensures node == Tag("script", false, false, Block([Text(RuntimeText(sources, cache))]))
      ensures node.block.nodes[0].val[..|Prefix|] == Prefix
      ensures node.block.nodes[0].val[|node.block.nodes[0].val| - |Suffix|..] == Suffix
    {
      var helpers := RuntimeHelpers(sources);
      var templates := TemplateAssignments();
      var runtime := Prefix + helpers + templates + Suffix;
      Framed(helpers, templates);
      node := Tag("script", false, false, Block([Text(runtime)]));
    }

    /** The loop of src/index.js:74-83 over the cache, with `objectsOutput` tracking the namespaces seen. */
    method TemplateAssignments() returns (text: string)
      ensures text == RenderAll(NamespaceChunks(cache))
    {
      text := "";
      var objectsOutput: seq<string> := [];
      var j := 0;
      while j < |cache|
        invariant 0 <= j <= |cache|
        invariant forall o :: o in objectsOutput <==> o in Objs(cache[..j])
        invariant text == TemplatePart(cache[..j])
      {
        var fn := cache[j];
        assert cache[..j + 1][..j] == cache[..j];
        if fn.obj !in objectsOutput {
          objectsOutput := objectsOutput + [fn.obj];
          text := text + Render(Guard(fn.obj));
        }
        text := text + Render(Assign(fn.obj, fn.name, fn.fn));
        j := j + 1;
      }
      assert cache[..j] == cache;
      TemplatePartChunks(cache);
    }

    /**
     * The loop of `visit` (src/index.js:255-260): the server preamble built from every
     * entry, each entry flagged as emitted on the way.
     */
    method MarkAllServer() returns (js: string)
      modifies this`cache
      ensures js == Preamble(old(cache))
      ensures cache == MarkServer(old(cache))
    {
      js := PreambleHead;
      var i := 0;
      while i < |cache|
        invariant 0 <= i <= |cache| == |old(cache)|
        invariant forall k :: 0 <= k < i ==> cache[k] == old(cache)[k].(server := true)
        invariant forall k :: i <= k < |cache| ==> cache[k] == old(cache)[k]
        invariant js == Preamble(old(cache)[..i])
      {
        assert old(cache)[..i + 1] == old(cache)[..i] + [cache[i]];
        PreambleSnoc(old(cache)[..i], cache[i]);
        js := js + PreambleAssign(cache[i]);
        cache := cache[i := cache[i].(server := true)];
        i := i + 1;
      }
      assert old(cache)[..i] == old(cache);
      assert cache == MarkServer(old(cache));
    }

    /**
     * The patched `visit`: on the first real node at depth 1 it builds the server
     * preamble from the whole cache, marks every entry as emitted and pushes the preamble
     * if the cache had entries; it then always calls the original.
     */
    method Visit(gen: CodeGenerator, node: Option<Node>, parent: Option<Node>)
      requires Valid()
      modifies this, gen
      ensures Valid()
      ensures level == old(level) && options == old(options)
      ensures ServerHelpersDue(node, old(level), old(outputServerHelpers)) ==>
        && !outputServerHelpers
        && preamblesBuilt == old(preamblesBuilt) + 1
        && cache == MarkServer(old(cache))
        && gen.log == old(gen.log) + PreamblePush(old(cache)) + [OrigVisit(node, parent)]
      ensures !ServerHelpersDue(node, old(level), old(outputServerHelpers)) ==>
        && outputServerHelpers == old(outputServerHelpers)
        && preamblesBuilt == old(preamblesBuilt)
        && cache == old(cache)
        && gen.log == old(gen.log) + [OrigVisit(node, parent)]
    {
      if node.Some? && node.value.Type() != "" && node.value.Type() != "Block" && level == 1 && outputServerHelpers {
        outputServerHelpers := false;
        preamblesBuilt := preamblesBuilt + 1;

        var js := MarkAllServer();
        MarkServerFacts(old(cache));
        if js != PreambleHead {
          gen.log := gen.log + [Push(js + ";")];
        }
      }
      gen.log := gen.log + [OrigVisit(node, parent)];
    }

    /**
     * The patched `visitText`: plain text goes to the original; a declaration marker
     * emits nothing; a reference buffers one call of the server-side function.
     */
    method VisitText(gen: CodeGenerator, node: Node) returns (r: Outcome<Error>)
      modifies gen
      ensures !node.HasPugTemplate() ==> r == Pass && gen.log == old(gen.log) + [OrigVisitText(node)]
      ensures node.TemplateDecl? ==> r == Pass && gen.log == old(gen.log)
      ensures node.TemplateRef? && Has(cache, node.func) ==>
        r == Pass && gen.log == old(gen.log) + [BufferExpression(ReferenceCall(node.func, node.data))]
      ensures node.TemplateRef? && !Has(cache, node.func) ==>
        r == Fail(CannotRead("undefined", "server")) &&
        gen.log == old(gen.log)
    {
      if !node.HasPugTemplate() {
        gen.log := gen.log + [OrigVisitText(node)];
        return Pass;
      }
      if node.TemplateDecl? {
        return Pass;
      }
      var func := Lookup(cache, node.func);
      if func.None? {
        return Fail(CannotRead("undefined", "server"));
      }
      var exp := "(function(argData){return pug_pct_tmpl." + node.func + "(argData);})(" + node.data + ")";
      gen.log := gen.log + [BufferExpression(exp)];
      r := Pass;
    }
  }

  /** The `forEach` of src/index.js:66-71: each runtime helper but `rethrow`, in sorted name order. */
  method RuntimeHelpers(sources: map<string, string>) returns (text: string)
    ensures forall n :: n in HelperNames(sources) ==> n in sources
    ensures text == HelperText(sources, HelperNames(sources))
  {
    text := "";
    EnumerationExists(sources.Keys);
    var propNames :| Enumerates(propNames, sources.Keys);
    var sorted := Sort(propNames);
    SortIndependent(propNames, sources.Keys);
    var i := 0;
    while i < |sorted|
      invariant 0 <= i <= |sorted|
      invariant forall n :: n in Exposed(sorted[..i]) ==> n in sources
      invariant text == HelperText(sources, Exposed(sorted[..i]))
    {
      var name := sorted[i];
      assert sorted[..i + 1] == sorted[..i] + [name];
      HelperTextSnoc(sources, sorted[..i], name);
      if name != Rethrow {
        text := text + sources[name];
        text := text + Publish(name);
      }
      i := i + 1;
    }
    assert sorted[..i] == sorted;
    ExposedFacts(sorted);
  }
}

# pug-client-template, modelled in Dafny

`src/index.js` is a pug plugin. It adds a `pugtemplate` tag and a `pugruntime` tag to
pug templates. A `pugtemplate` tag with a `name` (and optionally an `obj` namespace)
declares a template fragment: its text is compiled once with `pug.compileClient`, and the
resulting client function is stored in a process-wide `templateCache`. A `pugtemplate`
tag with a `name` and a `data` attribute references a declared fragment. On the server,
the first real node that pug's code generator visits in the outermost compile emits a
preamble `;var pug_pct_tmpl={};pug_pct_tmpl.NAME=FN...;`, and each reference becomes a
call `pug_pct_tmpl.NAME(DATA)`. A `pugruntime` tag becomes a `<script>` holding pug's
runtime helpers and every cached fragment, each one attached to `window.OBJ.NAME`.
Wrappers around `pug.compile` and `pug.compileClientWithDependenciesTracked` count the
depth of nested compiles. They capture the options of the outermost call. When the depth
returns to 0, they clear the options and the cache, even if the call threw.

The model, one Dafny module per concern:

- `Wrappers` holds `Option`, `Result` and `Outcome`, which stand for JavaScript's
  `undefined`, `throw` and `return`.
- `JsStrings` holds `substring` (with its clamping and swapping of arguments), `join('')`,
  and the default order of `Array.prototype.sort()`. It also has a reference sort with its
  correctness proof.
- `Ast` holds the nodes the plugin builds or inspects, and the errors it throws.
- `Lexer` models `handleLexClientTemplate`: the keyword lookahead, and what the hook then
  does to pug's lexer, which is a class whose input, interpolation flag and event log
  the hook changes.
- `Registry` models `templateCache`. It is a sequence of entries with distinct names, in
  the insertion order that `for..in` follows.
- `TemplateTag` models the decision `parseClientTemplate` takes from a tag's attributes
  and the cache: an error, a reference, or a declaration.
- `RuntimeScript` and `ServerCode` give the strings the plugin builds. They specify them
  as sequences of chunks, and prove ordering and deduplication facts about them.
- `ClientTemplate` models the module state and the code that changes it: the class
  `ModuleState` with the four module-level variables, the two compile wrappers,
  `parseClientTemplate`, `parsePugRuntime`, and the patched `visit` and `visitText`.
  The loops of the source are `while` loops proved against the functions above.
- `Plugins` models `register` and the middleware.

pug itself is not modelled. A call of an original pug entry point is a `Run`. A `Run`
lists the hook calls pug makes back into the plugin, in order, then what pug finally
returns or throws. `pug.compileClient` goes through the patched
`compileClientWithDependenciesTracked`, so the compile of a declaration's text is itself a
nested, wrapped `Run`. The wrappers, that nesting, and the cache are all verified together.

Facts the model makes explicit:

- `outputServerHelpers` starts `true` and is never set back to `true`. So at most one
  preamble is ever built per process (`preamblesBuilt <= 1` is part of
  `ModuleState.Valid`). Every later top-level compile still turns references into
  `pug_pct_tmpl.NAME(...)` calls, but emits no preamble.
- A template name is stripped with `substring(1, length - 1)`. A value of two or more
  characters loses its first and last character. A one-character value is kept whole,
  because `substring` swaps reversed arguments.
- When `parseClientTemplate` declares a template outside any wrapped compile,
  `compileOptions` is `null`. Reading `compileOptions.pretty` then throws a `TypeError`.
  The same happens in `visitText` for a reference whose entry is no longer in the cache
  (`func.server` on `undefined`).
- The registry and the options are cleared only on the way out, at depth 0, never on
  entry. The one-shot preamble flag is never set back to `true`.
- An attribute written without a value holds the boolean `true`. A valueless `obj` or
  `name` makes the `substring` call throw a `TypeError`; `obj` is stripped first. A
  valueless `data` is accepted, and the reference then passes the text `true`.

## Model

| member | source | states |
|---|---|---|
| `JsStrings.Substring` | src/index.js:129-130 | `substring` returns a slice of the string: the plain slice for in-range arguments in either order, the whole string for arguments beyond both ends, and the empty string for equal arguments; `StripQuotes` states its use on attribute values |
| `JsStrings.StripQuotes` | src/index.js:129-130 | an attribute value of length 2 or more loses exactly its first and last character; a 1-character value is kept, an empty one stays empty |
| `JsStrings.SortSorted` | src/index.js:67 | the reference sort of distinct names is strictly ascending and a permutation of its input |
| `JsStrings.SortedKeys` | src/index.js:66-67 | the sorted property names are strictly ascending and hold exactly the keys of the runtime-source map |
| `JsStrings.SortIndependent` | src/index.js:66-67 | whatever order `getOwnPropertyNames` enumerates the keys in, sorting them yields the same sequence |
| `Lexer.LexerState.Scan` | src/index.js:49-58 | a keyword scan matches exactly when the keyword is followed by `(`, a space, a newline or the end, and then consumes the keyword and nothing else |
| `Lexer.LexerState.HandleLex` | src/index.js:48-60 | the hook reports the input handled exactly when it starts with `pugtemplate`; it then pushes that token, lexes the attributes with interpolation as it was, switches interpolation off, and lexes the pipeless text with it off; on `pugruntime` it only pushes that token; the lexer is left untouched exactly when neither keyword is at the cursor |
| `Lexer.KeywordsExclusive` | src/index.js:49-58 | no input matches both keywords, so the order of the two scans does not matter |
| `Registry.IndexOf` | src/index.js:133 | the position of a key is its first occurrence, and it is -1 exactly when `hasOwnProperty` is false |
| `Registry.Put` | src/index.js:168 | assigning an entry grows the cache by one for a new name and keeps its size for a known one, and the entry is then in the cache; `PutFacts` states the rest |
| `Registry.PutFacts` | src/index.js:168 | storing an entry keeps keys distinct and in their order, appends a new key, makes the entry its key's value, and leaves every other key's value unchanged |
| `Registry.PrefixLookups` | src/index.js:147-168 | a cache that only had keys appended behind its earlier entries still maps every earlier key to the entry it had, so a later declaration never changes what an earlier name resolves to |
| `Registry.MarkServer` | src/index.js:259 | every entry keeps its place, name, function and namespace, and has its server flag set; `MarkServerFacts` states what lookups then find |
| `Registry.MarkServerFacts` | src/index.js:256-260 | flagging every entry as emitted keeps each entry's name, function and namespace, its position, and key distinctness |
| `TemplateTag.FindAttr` | src/index.js:119-121 | `find` returns the first attribute with that name, or nothing exactly when there is none |
| `TemplateTag.Classify` | src/index.js:119-149 | the decision on a tag: a reference carries the tag's stripped name, which is non-empty and in the cache; a declaration carries the tag's stripped name, which is not in the cache, and its stripped namespace; an already-defined error names a cached name and a not-defined error an uncached one; the lemmas below state each branch; the quote stripping of lines 129-130 is its helper `Unquote` |
| `TemplateTag.MissingNameRejected` | src/index.js:122-124 | a tag is rejected with the missing-name error exactly when it has no `name` attribute |
| `TemplateTag.ValuelessRejected` | src/index.js:125-130 | a tag with a `name` fails with a type error exactly when its `obj` or its `name` has no value, and the `obj` error comes first |
| `TemplateTag.DefaultNamespace` | src/index.js:125-129 | without an `obj` attribute a declaration goes into the `templates` namespace |
| `TemplateTag.ReferenceIff` | src/index.js:129-145 | a tag is a reference exactly when its name and namespace strip without error, the stripped name is non-empty, it has `data`, and the name is in the cache; the reference carries that name and the raw `data` text, `true` for a valueless `data` |
| `TemplateTag.UndeclaredReferenceFails` | src/index.js:132-134 | a reference to a name not in the cache fails with an error naming it |
| `TemplateTag.EmptyNameWithDataDeclares` | src/index.js:132-149 | an empty name with `data` takes the declaration branch: it declares, or fails as already defined |
| `TemplateTag.RedeclareFails` | src/index.js:147-149 | after a declaration of a name, a second declaration of that name fails with already-defined |
| `TemplateTag.ReferenceAfterDeclare` | src/index.js:132-168 | after a declaration of a non-empty name, a tag with that name and `data` is a reference to it |
| `TemplateTag.ReferenceResolvesAfterPreamble` | src/index.js:256-275 | an entry a reference found at parse time is still found after the preamble marked every entry, with the same function and the server flag set |
| `RuntimeScript.ExposedFacts` | src/index.js:67-68 | the helpers kept are exactly the given names other than `rethrow`, and they stay in ascending order |
| `RuntimeScript.HelperNamesFacts` | src/index.js:66-71 | the script exposes every runtime helper except `rethrow`, each once, in ascending name order |
| `RuntimeScript.NamespaceChunks` | src/index.js:74-83 | the template part of the script as chunks, one or two per entry; `ChunkCount`, `GuardOnce`, `GuardBeforeAssign` and `AssignmentsFollowCache` state its shape |
| `RuntimeScript.ChunkCount` | src/index.js:74-83 | there is one chunk per cache entry and one more per distinct namespace |
| `RuntimeScript.TemplatePartChunks` | src/index.js:74-83 | the text the loop builds entry by entry, with a guard for each namespace not seen before, is the rendering of the chunk sequence |
| `RuntimeScript.GuardOnce` | src/index.js:74-83 | each namespace of the cache gets exactly one `window.OBJ={};` guard, and no other guard appears |
| `RuntimeScript.GuardBeforeAssign` | src/index.js:74-83 | every guard of a namespace precedes every assignment into that namespace |
| `RuntimeScript.AssignmentsFollowCache` | src/index.js:75-83 | without the guards, the template part is exactly one assignment per cache entry, in cache order |
| `ServerCode.Preamble` | src/index.js:255-262 | the preamble starts with the declaration of `pug_pct_tmpl`, and equals that bare declaration exactly when the cache is empty, so it is pushed exactly when the cache has an entry |
| `ClientTemplate.ModuleState.constructor` | src/index.js:8-11 | the module starts with an empty cache, null options, depth 0 and the preamble flag set |
| `ClientTemplate.ModuleState.Enter` | src/index.js:204-205 | options are captured (or `{}` when absent) only when entering at depth 0, nested entries keep them, and the depth grows by one |
| `ClientTemplate.ModuleState.Exit` | src/index.js:215-222 | the depth drops by one; back at 0 the options become null and the cache empty; the caught error or the result is handed on unchanged |
| `ClientTemplate.ModuleState.Compile` | src/index.js:202-223 | the depth returns to its entry value; a top-level call leaves null options and an empty cache, whether or not pug threw; nested calls keep the options and keep the whole earlier cache as a prefix, so every earlier entry keeps its value; when no hook threw, pug's result or error comes back unchanged, and when a hook threw, that error is re-thrown; a run with no template tag to parse and no reference to visit has no hook error |
| `ClientTemplate.ModuleState.CompileClientWithDependenciesTracked` | src/index.js:225-246 | the same lifecycle and the same outcome for the second wrapped entry point |
| `ClientTemplate.ModuleState.HostCompile` | src/index.js:210 | one original pug call runs the plugin's hooks in order against one code generator and stops at the first that throws, whose error it throws, and only a tag parse or a reference visit can throw; otherwise it ends as pug says; it keeps depth, options and existing keys, and below depth 1 the whole earlier cache as a prefix |
| `ClientTemplate.ModuleState.HandleEvent` | src/index.js:34-45 | one call pug makes into the registered hooks: only a tag parse or a reference visit can throw, never a plain-text visit; depth and options are kept, existing keys stay in place, only a declaration can change the cache of a nested compile, and everything but a top-level visit keeps the earlier cache as a prefix |
| `ClientTemplate.ModuleState.DeclareTemplate` | src/index.js:151-168 | outside any compile it throws on the null options and changes nothing; otherwise it succeeds exactly when the nested client compile had no hook error and pug returned, re-throws the error otherwise, and on success the new name maps to `{fn, obj, server:false}` (built by its helper `Declared`), appended when the nested compile declared nothing; for a new name the earlier cache stays a prefix; its helper `ClientOptions` builds the options object of lines 154-166, which only pug reads |
| `ClientTemplate.ModuleState.ParseClientTemplate` | src/index.js:111-176 | rejections and references leave the cache unchanged and return the classified error or a reference node; a declaration outside any compile throws on the null options; otherwise it returns the declaration marker exactly when the nested client compile succeeded with no hook error, re-throws the hook's or pug's error otherwise, and on success stores `{fn, obj, server:false}` under its name, appended when the nested compile declared nothing; in every case the earlier cache stays a prefix, so no earlier entry changes |
| `ClientTemplate.ModuleState.ParsePugRuntime` | src/index.js:62-109 | the result is a non-self-closing `script` tag whose one text node is the runtime text, starting with `(function(){window.pug={};` and ending with `})();` |
| `ClientTemplate.RuntimeHelpers` | src/index.js:66-71 | the sorted-name loop appends each helper but `rethrow`, in ascending order |
| `ClientTemplate.ModuleState.TemplateAssignments` | src/index.js:74-83 | the `for..in` loop with `objectsOutput` produces exactly the guard-once chunk sequence of the cache |
| `ClientTemplate.ModuleState.MarkAllServer` | src/index.js:255-260 | the loop builds the preamble from every entry in cache order and sets every entry's server flag |
| `ClientTemplate.ModuleState.Visit` | src/index.js:249-265 | only on a typed non-`Block` node at depth 1 while the flag is set: the flag is cleared, every entry marked, and the preamble pushed if the cache is non-empty; otherwise nothing changes; the original visit is always called last |
| `ClientTemplate.ModuleState.VisitText` | src/index.js:267-284 | a node without `pugtemplate` is delegated unchanged; a declaration marker emits nothing; a reference buffers exactly `(function(argData){return pug_pct_tmpl.NAME(argData);})(DATA)`, or throws when its entry is gone |
| `Plugins.Registered` | src/index.js:26-34 | registration fails exactly when `plugins` is set to a non-array; otherwise the list grows by exactly one, keeps its earlier entries, and ends with the descriptor |
| `Plugins.Locals.Register` | src/index.js:23-46 | on a non-array `plugins` it throws and changes nothing; otherwise `plugins` becomes the array of `Registered` |
| `Plugins.Locals.Middleware` | src/index.js:15-21 | `next` is called exactly when registration did not throw |
| `Plugins.RegisterRepeated` | src/index.js:30-34 | running the middleware k times on one response appends k descriptors after the earlier plugins |

## Left out

- pug's lexer, parser and code generator are not modelled. Neither are `lexer.scan`,
  `callLexerFunction`, `parser.attrs`, `parser.peek`, `parseTextBlock`, `emptyBlock` or
  `pug.compileClient`'s code generation. What they return is an input: the attributes,
  the `val`s of the text block, and the outcome of a `Run`. A tag without an attribute
  list is a tag whose attribute sequence is empty.
- The options object `ClientOptions` builds for `pug.compileClient` reaches no further
  model code: the nested `Run` already stands for everything pug does with it.
- `pug-runtime/lib/sources` is a given map from helper name to source text.
- `origVisit` and `origVisitText` are recorded as calls on the generator; what pug emits
  for them is not modelled.
- `console.log` diagnostics, AST `line`, `column` and `filename` fields, the commented-out
  code, and the empty `if (!func.server)` block are not modelled.
- The `postCodeGen` hook returns its argument unchanged. Only that fact is kept, as a
  flag in the descriptor.
- `for..in` lists integer-like keys (such as `"1"`) first, in numeric order. The model
  uses insertion order for all keys.
- `Array.prototype.sort()` compares UTF-16 code units. The model compares characters.
  The two orders differ only for characters above U+FFFF.
- `options || {}` also replaces falsy non-object options such as `0` or `false`. The model
  has only "given" or "absent".
- What a wrapped compile returns, a template function or a client-code object, is a string.
- `ClientTemplate.ModuleState.HostCompile`: the error a hook threw is a ghost out-parameter;
  the contract says that it is re-thrown and that some hook able to throw (a tag parse or
  a reference visit) was called, not which call it was.
- `ClientTemplate.ModuleState.Compile`: carries the hook error of `HostCompile` out, with
  the same limit.
- `ClientTemplate.ModuleState.CompileClientWithDependenciesTracked`: same as `Compile`.
- `callLexerFunction('attrs')` and `callLexerFunction('pipelessText')` are recorded in the
  lexer's log with the interpolation flag at the time of the call; what they consume is
  pug's and is not modelled.
- The cache is a plain JavaScript object, and the model treats it as a map with no
  prototype. A template named `__proto__` replaces the cache's prototype instead of adding
  a key; the model stores it like any other name.
- A template named `hasOwnProperty` shadows the method, so each later
  `templateCache.hasOwnProperty(...)` call (src/index.js:76, 133, 147, 257) throws; the
  model stores it like any other name.
- `visitText` reads `templateCache[node.func]` (src/index.js:275), which also finds
  inherited properties such as `constructor`. When the entry is gone, the model throws for
  every name, while the source emits the call for those inherited names.
- `if (err) throw err` (src/index.js:221, 244) ignores a thrown falsy value such as `0`
  or `null`, and the wrapper then returns `null`. The model's errors are all objects, so
  every error is re-thrown.
- The keyword fragment syntax with parameter lists and a rest parameter, dotted
  namespaces, the `preLoad` rewrite and client-target code generation are not in
  `src/index.js`. They are not part of this model.

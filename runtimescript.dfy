/**
 * The text of the `<script>` that `parsePugRuntime` (src/index.js:62-109) builds:
 * a fixed prefix, pug's runtime helpers in sorted name order without `rethrow`,
 * every cached template attached to its namespace object, and a fixed suffix.
 */
module RuntimeScript {
  import opened JsStrings
  import opened Registry

  const Prefix := "(function(){window.pug={};"
  const Suffix := "})();"

  /** The one runtime helper that is never exposed to the page. */
  const Rethrow := "rethrow"

  /** The helper names the `forEach` callback does not skip, in their order. */
  function Exposed(names: seq<string>): seq<string>
  {
    if names == [] then []
    else
      var last := names[|names| - 1];
      Exposed(names[..|names| - 1]) + (if last == Rethrow then [] else [last])
  }

  /** The statement that publishes the helper function `pug_NAME` as the property `NAME` of `window.pug`. */
  function Publish(name: string): string
  {
    "window.pug." + name + "=" + "pug_" + name + ";"
  }

  /** The text for the helpers `names`, in that order: each one's source, then its publication. */
  function HelperText(sources: map<string, string>, names: seq<string>): string
    requires forall n :: n in names ==> n in sources
  {
    if names == [] then ""
    else
      var last := names[|names| - 1];
      HelperText(sources, names[..|names| - 1]) + sources[last] + Publish(last)
  }

  /** One more helper name: its source and publication are appended, unless it is `rethrow`. */
  lemma {:induction false} HelperTextSnoc(sources: map<string, string>, names: seq<string>, n: string)
    requires forall x :: x in names ==> x in sources
    requires n in sources
    ensures forall x :: x in Exposed(names + [n]) ==> x in sources
    ensures n == Rethrow ==> HelperText(sources, Exposed(names + [n])) == HelperText(sources, Exposed(names))
    ensures n != Rethrow ==>
      HelperText(sources, Exposed(names + [n])) == HelperText(sources, Exposed(names)) + sources[n] + Publish(n)
  {
    var s := names + [n];
    assert s[..|s| - 1] == names;
    ExposedFacts(names);
    ExposedFacts(s);
    if n != Rethrow {
      var e := Exposed(names) + [n];
      assert e[..|e| - 1] == Exposed(names);
    } else {
      assert Exposed(s) == Exposed(names) + [];
      assert Exposed(names) + [] == Exposed(names);
    }
  }

  /** The helpers the script exposes, in the order it exposes them. */
  ghost function HelperNames(sources: map<string, string>): seq<string>
  {
    Exposed(SortedKeys(sources.Keys))
  }

  lemma {:induction false} ExposedFacts(names: seq<string>)
    ensures forall n :: n in Exposed(names) <==> n in names && n != Rethrow
    ensures StrictlySorted(names) ==> StrictlySorted(Exposed(names))
  {
    if names != [] {
      var p := names[..|names| - 1];
      var last := names[|names| - 1];
      ExposedFacts(p);
      assert names == p + [last];
      if StrictlySorted(names) {
        assert StrictlySorted(p);
        forall x | x in Exposed(p) ensures Less(x, last) {
          var i :| 0 <= i < |p| && p[i] == x;
        }
      }
    }
  }

  /**
   * The exposed helpers are every runtime source except `rethrow`, each once, in
   * ascending name order, whatever order the property enumeration produced.
   */
  lemma HelperNamesFacts(sources: map<string, string>)
    ensures Rethrow !in HelperNames(sources)
    ensures forall n :: n in HelperNames(sources) <==> n in sources && n != Rethrow
    ensures StrictlySorted(HelperNames(sources))
  {
    ExposedFacts(SortedKeys(sources.Keys));
  }

  /** One piece of the template part of the script. */
  datatype Chunk =
    | Guard(obj: string)                             // creates the namespace object OBJ on `window`
    | Assign(obj: string, name: string, fn: string)  // stores function FN as NAME in namespace OBJ

  function Render(ch: Chunk): string
  {
    match ch
    case Guard(o) => "window." + o + "={};"
    case Assign(o, n, f) => "window." + o + "." + n + "=" + f + ";"
  }

  function RenderAll(chs: seq<Chunk>): string
  {
    if chs == [] then "" else RenderAll(chs[..|chs| - 1]) + Render(chs[|chs| - 1])
  }

  /** The namespaces of the entries: what `objectsOutput` holds after the loop. */
  function Objs(c: seq<Entry>): set<string>
  {
    if c == [] then {} else Objs(c[..|c| - 1]) + {c[|c| - 1].obj}
  }

  /**
   * The loop of src/index.js:75-83: a guard the first time a namespace is seen, then the
   * assignment; so each entry yields one or two chunks (`ChunkCount` gives the exact number).
   */
  function NamespaceChunks(c: seq<Entry>): (r: seq<Chunk>)
    ensures |c| <= |r| <= 2 * |c|
  {
    if c == [] then []
    else
      var p, e := c[..|c| - 1], c[|c| - 1];
      NamespaceChunks(p) + (if e.obj in Objs(p) then [] else [Guard(e.obj)]) + [Assign(e.obj, e.name, e.fn)]
  }

  /** The assignment chunks, guards dropped. */
  function Assignments(chs: seq<Chunk>): seq<Chunk>
  {
    if chs == [] then []
    else Assignments(chs[..|chs| - 1]) + (if chs[|chs| - 1].Assign? then [chs[|chs| - 1]] else [])
  }

  /** The whole script text for these runtime sources and this cache. */
  ghost function RuntimeText(sources: map<string, string>, c: seq<Entry>): string
  {
    ExposedFacts(SortedKeys(sources.Keys));
    Prefix + HelperText(sources, HelperNames(sources)) + RenderAll(NamespaceChunks(c)) + Suffix
  }

  /** The script text opens with the prefix and closes with the suffix, whatever comes between. */
  lemma Framed(helpers: string, templates: string)
    ensures (Prefix + helpers + templates + Suffix)[..|Prefix|] == Prefix
    ensures var t := Prefix + helpers + templates + Suffix; t[|t| - |Suffix|..] == Suffix
  {
    var t := Prefix + helpers + templates + Suffix;
    assert t == Prefix + (helpers + templates + Suffix);
    assert t == (Prefix + helpers + templates) + Suffix;
  }

  lemma {:induction false} RenderAllAppend(a: seq<Chunk>, b: seq<Chunk>)
    ensures RenderAll(a + b) == RenderAll(a) + RenderAll(b)
    decreases |b|
  {
    if b != [] {
      var b' := b[..|b| - 1];
      assert (a + b)[..|a + b| - 1] == a + b';
      RenderAllAppend(a, b');
    } else {
      assert a + b == a;
    }
  }

  lemma {:induction false} AssignmentsAppend(a: seq<Chunk>, b: seq<Chunk>)
    ensures Assignments(a + b) == Assignments(a) + Assignments(b)
    decreases |b|
  {
    if b != [] {
      var b' := b[..|b| - 1];
      assert (a + b)[..|a + b| - 1] == a + b';
      AssignmentsAppend(a, b');
    } else {
      assert a + b == a;
    }
  }

  /** The chunks of one more entry: its guard if its namespace is new, then its assignment. */
  lemma {:induction false} NamespaceChunksSnocChunks(c: seq<Entry>, e: Entry)
    ensures Objs(c + [e]) == Objs(c) + {e.obj}
    ensures e.obj in Objs(c) ==> NamespaceChunks(c + [e]) == NamespaceChunks(c) + [Assign(e.obj, e.name, e.fn)]
    ensures e.obj !in Objs(c) ==>
            NamespaceChunks(c + [e]) == NamespaceChunks(c) + [Guard(e.obj)] + [Assign(e.obj, e.name, e.fn)]
  {
    var ce := c + [e];
    assert ce[..|ce| - 1] == c && ce[|ce| - 1] == e;
  }

  lemma RenderAllSingle(ch: Chunk)
    ensures RenderAll([ch]) == Render(ch)
  {
    assert [ch][..0] == [];
  }

  /** One more entry in a namespace already seen: only its assignment is appended. */
  lemma {:induction false} RenderSnocSeen(c: seq<Entry>, e: Entry)
    requires e.obj in Objs(c)
    ensures RenderAll(NamespaceChunks(c + [e])) == RenderAll(NamespaceChunks(c)) + Render(Assign(e.obj, e.name, e.fn))
  {
    NamespaceChunksSnocChunks(c, e);
    RenderAllAppend(NamespaceChunks(c), [Assign(e.obj, e.name, e.fn)]);
    RenderAllSingle(Assign(e.obj, e.name, e.fn));
  }

  /** One more entry in a new namespace: its guard, then its assignment, are appended. */
  lemma {:induction false} RenderSnocNew(c: seq<Entry>, e: Entry)
    requires e.obj !in Objs(c)
    ensures RenderAll(NamespaceChunks(c + [e])) ==
            RenderAll(NamespaceChunks(c)) + Render(Guard(e.obj)) + Render(Assign(e.obj, e.name, e.fn))
  {
    NamespaceChunksSnocChunks(c, e);
    var a, gd := Assign(e.obj, e.name, e.fn), Guard(e.obj);
    RenderAllAppend(NamespaceChunks(c) + [gd], [a]);
    RenderAllAppend(NamespaceChunks(c), [gd]);
    RenderAllSingle(a);
    RenderAllSingle(gd);
  }

  /** The template part of the script, entry by entry, as the loop builds it. */
  function TemplatePart(c: seq<Entry>): string
  {
    if c == [] then ""
    else
      var p, e := c[..|c| - 1], c[|c| - 1];
      TemplatePart(p) + (if e.obj in Objs(p) then "" else Render(Guard(e.obj))) + Render(Assign(e.obj, e.name, e.fn))
  }

  /** Built entry by entry, the template part is the rendering of the chunk sequence. */
  lemma {:induction false} TemplatePartChunks(c: seq<Entry>)
    ensures TemplatePart(c) == RenderAll(NamespaceChunks(c))
  {
    if c != [] {
      var p, e := c[..|c| - 1], c[|c| - 1];
      assert c == p + [e];
      TemplatePartChunks(p);
      if e.obj in Objs(p) {
        RenderSnocSeen(p, e);
      } else {
        RenderSnocNew(p, e);
      }
    }
  }

  /** Every guard comes before every assignment into the same namespace. */
  predicate GuardsFirst(chs: seq<Chunk>)
  {
    forall j, k ::
      (0 <= j < |chs| && 0 <= k < |chs| && chs[j].Guard? && chs[k].Assign? && chs[j].obj == chs[k].obj)
      ==> j < k
  }

  /** One assignment per entry and one guard per distinct namespace. */
  lemma {:induction false} ChunkCount(c: seq<Entry>)
    ensures |NamespaceChunks(c)| == |c| + |Objs(c)|
  {
    if c != [] {
      var p, e := c[..|c| - 1], c[|c| - 1];
      ChunkCount(p);
      assert e.obj in Objs(p) ==> Objs(c) == Objs(p);
    }
  }

  /** Every chunk belongs to the namespace of some entry. */
  lemma {:induction false} ChunkObjs(c: seq<Entry>)
    ensures forall k :: 0 <= k < |NamespaceChunks(c)| ==> NamespaceChunks(c)[k].obj in Objs(c)
  {
    if c != [] {
      ChunkObjs(c[..|c| - 1]);
    }
  }

  /** Each namespace's guard appears exactly once, and no other guard appears. */
  lemma {:induction false} GuardOnce(c: seq<Entry>, o: string)
    ensures multiset(NamespaceChunks(c))[Guard(o)] == if o in Objs(c) then 1 else 0
  {
    if c != [] {
      var p, e := c[..|c| - 1], c[|c| - 1];
      GuardOnce(p, o);
      var g := if e.obj in Objs(p) then [] else [Guard(e.obj)];
      assert NamespaceChunks(c) == NamespaceChunks(p) + g + [Assign(e.obj, e.name, e.fn)];
      assert multiset(NamespaceChunks(c)) ==
             multiset(NamespaceChunks(p)) + multiset(g) + multiset{Assign(e.obj, e.name, e.fn)};
    }
  }

  /** A namespace's guard precedes every assignment into that namespace. */
  lemma {:induction false} GuardBeforeAssign(c: seq<Entry>)
    ensures GuardsFirst(NamespaceChunks(c))
  {
    if c != [] {
      var p, e := c[..|c| - 1], c[|c| - 1];
      GuardBeforeAssign(p);
      ChunkObjs(p);
      var prev := NamespaceChunks(p);
      var g := if e.obj in Objs(p) then [] else [Guard(e.obj)];
      var chs := NamespaceChunks(c);
      assert chs == prev + g + [Assign(e.obj, e.name, e.fn)];
      forall j, k | 0 <= j < |chs| && 0 <= k < |chs| && chs[j].Guard? && chs[k].Assign? &&
                    chs[j].obj == chs[k].obj
        ensures j < k
      {
        if k < |prev| && j < |prev| {
          assert chs[j] == prev[j] && chs[k] == prev[k];
        }
      }
    }
  }

  /** The assignment of each entry, in order. */
  function EntryAssignments(c: seq<Entry>): (r: seq<Chunk>)
    ensures |r| == |c|
    ensures forall i :: 0 <= i < |c| ==> r[i] == Assign(c[i].obj, c[i].name, c[i].fn)
  {
    seq(|c|, i requires 0 <= i < |c| => Assign(c[i].obj, c[i].name, c[i].fn))
  }

  /** One more entry adds exactly its assignment once the guards are dropped. */
  lemma AssignmentsSnoc(p: seq<Entry>, e: Entry)
    ensures Assignments(NamespaceChunks(p + [e])) == Assignments(NamespaceChunks(p)) + [Assign(e.obj, e.name, e.fn)]
  {
    var a := Assign(e.obj, e.name, e.fn);
    var g := if e.obj in Objs(p) then [] else [Guard(e.obj)];
    NamespaceChunksSnocChunks(p, e);
    assert NamespaceChunks(p + [e]) == NamespaceChunks(p) + g + [a];
    AssignmentsAppend(NamespaceChunks(p) + g, [a]);
    AssignmentsAppend(NamespaceChunks(p), g);
    assert Assignments(g) == [] by {
      if g != [] {
        assert g[..0] == [];
      }
    }
    assert Assignments([a]) == [a] by {
      assert [a][..0] == [];
    }
  }

  /** Guards dropped, the template part is one assignment per entry, in cache order. */
  lemma {:induction false} AssignmentsFollowCache(c: seq<Entry>)
    ensures Assignments(NamespaceChunks(c)) == EntryAssignments(c)
  {
    if c != [] {
      var p, e := c[..|c| - 1], c[|c| - 1];
      assert c == p + [e];
      AssignmentsFollowCache(p);
      AssignmentsSnoc(p, e);
      assert EntryAssignments(c) == EntryAssignments(p) + [Assign(e.obj, e.name, e.fn)];
    }
  }


}

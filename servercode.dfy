/** The server-side code the patched code generator emits (src/index.js:255-262, 282). */
module ServerCode {
  import opened Registry

  /** The statement declaring `pug_pct_tmpl`, the server-side lookup object, as empty. */
  const PreambleHead := ";var pug_pct_tmpl={}"

  /** The statement storing an entry's compiled function under its name in the lookup object. */
  function PreambleAssign(e: Entry): string
  {
    ";pug_pct_tmpl." + e.name + "=" + e.fn
  }

  /** The assignments for every entry, in cache order; each is at least one character long. */
  function PreambleBody(c: seq<Entry>): (r: string)
    ensures |r| >= |c|
  {
    if c == [] then "" else PreambleBody(c[..|c| - 1]) + PreambleAssign(c[|c| - 1])
  }

  /**
   * The `js` string of `visit` once its loop has run over the whole cache. It starts
   * with the declaration, and it differs from the bare declaration exactly when the
   * cache has an entry, so the preamble is pushed exactly when there is something in it.
   */
  function Preamble(c: seq<Entry>): (r: string)
    ensures PreambleHead <= r
    ensures r == PreambleHead <==> c == []
  {
    PreambleHead + PreambleBody(c)
  }

  /** One more entry appends its assignment to the preamble. */
  lemma PreambleSnoc(c: seq<Entry>, e: Entry)
    ensures Preamble(c + [e]) == Preamble(c) + PreambleAssign(e)
  {
    assert (c + [e])[..|c|] == c;
    assert PreambleHead + (PreambleBody(c) + PreambleAssign(e)) ==
           (PreambleHead + PreambleBody(c)) + PreambleAssign(e);
  }

  /**
   * The expression buffered for a reference: an immediately called function that passes
   * the `data` expression to the server-side template `name`.
   */
  function ReferenceCall(name: string, data: string): string
  {
    "(function(argData){return pug_pct_tmpl." + name + "(argData);})(" + data + ")"
  }
}

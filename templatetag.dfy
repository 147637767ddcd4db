/**
 * The decision `parseClientTemplate` (src/index.js:111-149) takes on a `pugtemplate`
 * tag, from the attributes `parser.attrs()` returned and the current cache: an error,
 * a reference to a declared template, or a new declaration.
 */
module TemplateTag {
  import opened Wrappers
  import opened JsStrings
  import opened Registry
  import opened Ast

  /**
   * The value pug's lexer gives an attribute: the source text of its expression,
   * quotes included, or the boolean `true` for an attribute written without a value.
   */
  datatype AttrVal = Expr(src: string) | Valueless

  /** One attribute as `parser.attrs()` returns it. */
  datatype Attr = Attr(name: string, val: AttrVal)

  /** The text an attribute value becomes when it is concatenated into generated code. */
  function ValText(v: AttrVal): string
  {
    match v
    case Expr(s) => s
    case Valueless => "true"
  }

  /** The message of the type error thrown when `substring` is called on a boolean held by `holder`. */
  function NotAFunction(holder: string): string
  {
    holder + ".val.substring is not a function"
  }

  /**
   * The attribute value with its first and last character removed. A valueless
   * attribute holds a boolean, which has no `substring` method, so the call throws.
   */
  function Unquote(v: AttrVal, holder: string): (r: Result<string, Error>)
    ensures v.Expr? <==> r.Ok?
    ensures v.Expr? ==> r.value == StripQuotes(v.src)
    ensures v.Valueless? ==> r.error == TypeError(NotAFunction(holder))
  {
    match v
    case Expr(s) => Ok(StripQuotes(s))
    case Valueless => Err(TypeError(NotAFunction(holder)))
  }

  /** The first attribute called `key`, searched from the front of the list. */
  function FindAttr(attrs: seq<Attr>, key: string): (r: Option<Attr>)
    ensures r.Some? ==> r.value.name == key
    ensures r.Some? ==> exists i :: 0 <= i < |attrs| && attrs[i] == r.value &&
                                    forall j :: 0 <= j < i ==> attrs[j].name != key
    ensures r.None? <==> forall i :: 0 <= i < |attrs| ==> attrs[i].name != key
  {
    if attrs == [] then None
    else if attrs[0].name == key then Some(attrs[0])
    else
      var r := FindAttr(attrs[1..], key);
      assert r.Some? ==> exists i :: 0 <= i < |attrs[1..]| && attrs[1..][i] == r.value &&
                                     forall j :: 0 <= j < i ==> attrs[1..][j].name != key;
      assert forall i :: 1 <= i < |attrs| ==> attrs[i] == attrs[1..][i - 1];
      r
  }

  /** The value used when a tag has no `obj` attribute: the quoted word `templates`. */
  const DefaultObj := Expr("'templates'")

  /** The decision taken on one `pugtemplate` tag. */
  datatype Action =
    | Reject(error: Error)                   // the parse hook throws
    | Reference(name: string, data: string)  // an invocation of a declared template
    | Declare(name: string, obj: string)     // a new template in namespace `obj`

  /** The `obj` attribute's value, or the default namespace when there is none. */
  function ObjVal(attrs: seq<Attr>): AttrVal
  {
    match FindAttr(attrs, "obj")
    case None => DefaultObj
    case Some(a) => a.val
  }

  /** The unquoted template name, when the tag has a `name` attribute with a value. */
  function NameOf(attrs: seq<Attr>): Option<string>
  {
    match FindAttr(attrs, "name")
    case None => None
    case Some(a) => if a.val.Valueless? then None else Some(StripQuotes(a.val.src))
  }

  /** The unquoted namespace, unless the `obj` attribute is valueless. */
  function ObjOf(attrs: seq<Attr>): Option<string>
  {
    match ObjVal(attrs)
    case Valueless => None
    case Expr(s) => Some(StripQuotes(s))
  }

  /**
   * The branch structure of src/index.js:119-149: missing name, then the namespace
   * and the name are unquoted (in that order), then reference or declaration.
   */
  function Classify(attrs: seq<Attr>, cache: seq<Entry>): (r: Action)
    ensures r.Reference? ==> r.name != "" && Has(cache, r.name) && NameOf(attrs) == Some(r.name)
    ensures r.Declare? ==> !Has(cache, r.name) && NameOf(attrs) == Some(r.name) && ObjOf(attrs) == Some(r.obj)
    ensures r.Reject? && r.error.AlreadyDefined? ==> Has(cache, r.error.name)
    ensures r.Reject? && r.error.NotDefined? ==> !Has(cache, r.error.name)
  {
    match FindAttr(attrs, "name")
    case None => Reject(MissingName)
    case Some(nameAttr) =>
      match Unquote(ObjVal(attrs), "objAttr")
      case Err(e) => Reject(e)
      case Ok(objectName) =>
        match Unquote(nameAttr.val, "nameAttr")
        case Err(e) => Reject(e)
        case Ok(templateName) =>
          var dataAttr := FindAttr(attrs, "data");
          if templateName != "" && dataAttr.Some? then
            if !Has(cache, templateName) then Reject(NotDefined(templateName))
            else Reference(templateName, ValText(dataAttr.value.val))
          else if Has(cache, templateName) then Reject(AlreadyDefined(templateName))
          else Declare(templateName, objectName)
  }

  /** A tag without a `name` attribute is rejected, and that is the only way to get that error. */
  lemma MissingNameRejected(attrs: seq<Attr>, cache: seq<Entry>)
    ensures Classify(attrs, cache) == Reject(MissingName) <==>
            forall i :: 0 <= i < |attrs| ==> attrs[i].name != "name"
  {
  }

  /**
   * A tag with a `name` fails with a type error exactly when its `obj` or its `name`
   * attribute has no value; the `obj` attribute is unquoted first.
   */
  lemma ValuelessRejected(attrs: seq<Attr>, cache: seq<Entry>)
    requires FindAttr(attrs, "name").Some?
    ensures (Classify(attrs, cache).Reject? && Classify(attrs, cache).error.TypeError?) <==>
            (ObjOf(attrs).None? || NameOf(attrs).None?)
    ensures ObjOf(attrs).None? ==>
            Classify(attrs, cache) == Reject(TypeError(NotAFunction("objAttr")))
    ensures ObjOf(attrs).Some? && NameOf(attrs).None? ==>
            Classify(attrs, cache) == Reject(TypeError(NotAFunction("nameAttr")))
  {
    var nameAttr := FindAttr(attrs, "name").value;
    var obj := Unquote(ObjVal(attrs), "objAttr");
    var c := Classify(attrs, cache);
    if obj.Err? {
      assert ObjOf(attrs).None?;
      assert c == Reject(obj.error);
    } else {
      assert ObjOf(attrs).Some?;
      var name := Unquote(nameAttr.val, "nameAttr");
      if name.Err? {
        assert NameOf(attrs).None?;
        assert c == Reject(name.error);
      } else {
        assert NameOf(attrs) == Some(name.value);
        assert !(c.Reject? && c.error.TypeError?);
      }
    }
  }

  /** Without an `obj` attribute a declaration goes into the `templates` namespace. */
  lemma DefaultNamespace(attrs: seq<Attr>, cache: seq<Entry>)
    requires forall i :: 0 <= i < |attrs| ==> attrs[i].name != "obj"
    ensures Classify(attrs, cache).Declare? ==> Classify(attrs, cache).obj == "templates"
  {
    assert FindAttr(attrs, "obj").None?;
    assert StripQuotes(DefaultObj.src) == DefaultObj.src[1..10] == "templates";
  }

  /**
   * A tag is a reference exactly when its name and namespace unquote, the name is
   * non-empty, it has a `data` attribute, and the name is already declared; it then
   * carries that name and the `data` attribute's text (`true` when it has no value).
   */
  lemma ReferenceIff(attrs: seq<Attr>, cache: seq<Entry>)
    ensures Classify(attrs, cache).Reference? <==>
            NameOf(attrs).Some? && ObjOf(attrs).Some? && NameOf(attrs).value != "" &&
            FindAttr(attrs, "data").Some? && Has(cache, NameOf(attrs).value)
    ensures Classify(attrs, cache).Reference? ==>
            Classify(attrs, cache) ==
            Reference(NameOf(attrs).value, ValText(FindAttr(attrs, "data").value.val))
  {
  }

  /** A reference to a name not in the cache is an error naming it. */
  lemma UndeclaredReferenceFails(attrs: seq<Attr>, cache: seq<Entry>)
    requires NameOf(attrs).Some? && ObjOf(attrs).Some? && NameOf(attrs).value != ""
    requires FindAttr(attrs, "data").Some?
    requires !Has(cache, NameOf(attrs).value)
    ensures Classify(attrs, cache) == Reject(NotDefined(NameOf(attrs).value))
  {
  }

  /** An empty name with `data` is not a reference: it takes the declaration branch. */
  lemma EmptyNameWithDataDeclares(attrs: seq<Attr>, cache: seq<Entry>)
    requires NameOf(attrs) == Some("") && ObjOf(attrs).Some?
    requires FindAttr(attrs, "data").Some?
    ensures !Has(cache, "") ==> Classify(attrs, cache) == Declare("", ObjOf(attrs).value)
    ensures Has(cache, "") ==> Classify(attrs, cache) == Reject(AlreadyDefined(""))
  {
  }

  /** The entry a successful declaration stores. */
  function Declared(a: Action, fn: string): (e: Entry)
    requires a.Declare?
    ensures e.name == a.name && e.obj == a.obj && e.fn == fn && !e.server
  {
    Entry(a.name, fn, a.obj, false)
  }

  /** Once `n` is declared, a second declaration of `n` fails. */
  lemma RedeclareFails(first: seq<Attr>, second: seq<Attr>, cache: seq<Entry>, fn: string)
    requires DistinctNames(cache)
    requires Classify(first, cache).Declare?
    requires NameOf(second) == NameOf(first) && ObjOf(second).Some?
    requires NameOf(first).value == "" || FindAttr(second, "data").None?
    ensures Classify(second, Put(cache, Declared(Classify(first, cache), fn))) ==
            Reject(AlreadyDefined(NameOf(first).value))
  {
    var e := Declared(Classify(first, cache), fn);
    PutFacts(cache, e);
  }

  /** Once `n` is declared, a tag naming `n` with `data` is a reference to it. */
  lemma ReferenceAfterDeclare(first: seq<Attr>, second: seq<Attr>, cache: seq<Entry>, fn: string)
    requires DistinctNames(cache)
    requires Classify(first, cache).Declare?
    requires NameOf(second) == NameOf(first) && NameOf(first).value != "" && ObjOf(second).Some?
    requires FindAttr(second, "data").Some?
    ensures Classify(second, Put(cache, Declared(Classify(first, cache), fn))) ==
            Reference(NameOf(first).value, ValText(FindAttr(second, "data").value.val))
  {
    var e := Declared(Classify(first, cache), fn);
    PutFacts(cache, e);
  }

  /**
   * A reference accepted at parse time finds its entry again after the server preamble
   * marked every entry: same function, now flagged as emitted.
   */
  lemma ReferenceResolvesAfterPreamble(attrs: seq<Attr>, cache: seq<Entry>)
    requires Classify(attrs, cache).Reference?
    ensures Lookup(MarkServer(cache), Classify(attrs, cache).name).Some?
    ensures Lookup(MarkServer(cache), Classify(attrs, cache).name).value ==
            Lookup(cache, Classify(attrs, cache).name).value.(server := true)
  {
    MarkServerFacts(cache);
  }
}

/**
 * `handleLexClientTemplate` (src/index.js:48-60), pug's `lex.include` hook: it
 * recognises the two keywords at the lexer's cursor and drives pug's lexer on.
 */
module Lexer {
  const TemplateKeyword := "pugtemplate"
  const RuntimeKeyword := "pugruntime"

  /** The keyword's lookahead pattern on the unconsumed input: the keyword, then `(`, a space, a newline or the end. */
  predicate KeywordAt(input: string, kw: string)
  {
    |kw| <= |input| && input[..|kw|] == kw &&
    (|input| == |kw| || input[|kw|] == '(' || input[|kw|] == ' ' || input[|kw|] == '\n')
  }

  /** What the hook does to pug's lexer, in order. */
  datatype LexEvent =
    | Pushed(kind: string)                           // a token of this type pushed onto `tokens`
    | Called(fn: string, interpolationAllowed: bool)  // `callLexerFunction(fn)`, with the flag as it then is

  /** pug's lexer, reduced to what the hook reads and changes. */
  class LexerState {
    var input: string               // the input not yet consumed
    var interpolationAllowed: bool
    var log: seq<LexEvent>

    constructor(input: string, interpolationAllowed: bool)
      ensures this.input == input && this.interpolationAllowed == interpolationAllowed && log == []
    {
      this.input := input;
      this.interpolationAllowed := interpolationAllowed;
      log := [];
    }

    /** `scan` with a keyword's pattern: on a match the keyword is consumed and a token of its type made. */
    method Scan(kw: string) returns (found: bool)
      modifies this`input
      ensures found <==> KeywordAt(old(input), kw)
      ensures found ==> input == old(input)[|kw|..]
      ensures !found ==> input == old(input)
    {
      found := KeywordAt(input, kw);
      if found {
        input := input[|kw|..];
      }
    }

    /** `callLexerFunction(fn)`: what pug's own lexing function then consumes is not part of this model. */
    method CallLexerFunction(fn: string)
      modifies this`log
      ensures log == old(log) + [Called(fn, interpolationAllowed)]
    {
      log := log + [Called(fn, interpolationAllowed)];
    }

    /**
     * The hook. On `pugtemplate` it pushes the token, lexes the attributes, switches
     * interpolation off, lexes the pipeless text and reports the input handled; on
     * `pugruntime` it only pushes the token and reports nothing; otherwise it does nothing.
     */
    method HandleLex() returns (handled: bool)
      modifies this
      ensures handled <==> KeywordAt(old(input), TemplateKeyword)
      ensures KeywordAt(old(input), TemplateKeyword) ==>
        && input == old(input)[|TemplateKeyword|..]
        && !interpolationAllowed
        && log == old(log) + [Pushed(TemplateKeyword), Called("attrs", old(interpolationAllowed)),
                              Called("pipelessText", false)]
      ensures !KeywordAt(old(input), TemplateKeyword) && KeywordAt(old(input), RuntimeKeyword) ==>
        && input == old(input)[|RuntimeKeyword|..]
        && interpolationAllowed == old(interpolationAllowed)
        && log == old(log) + [Pushed(RuntimeKeyword)]
      ensures log == old(log) <==>
        !KeywordAt(old(input), TemplateKeyword) && !KeywordAt(old(input), RuntimeKeyword)
      ensures log == old(log) ==>
        input == old(input) && interpolationAllowed == old(interpolationAllowed)
    {
      var found := Scan(TemplateKeyword);
      if found {
        log := log + [Pushed(TemplateKeyword)];
        CallLexerFunction("attrs");
        interpolationAllowed := false;
        CallLexerFunction("pipelessText");
        return true;
      }
      found := Scan(RuntimeKeyword);
      if found {
        log := log + [Pushed(RuntimeKeyword)];
      }
      handled := false;
    }
  }

  /** No input starts with both keywords, so the order in which they are tried does not matter. */
  lemma KeywordsExclusive(input: string)
    ensures !(KeywordAt(input, TemplateKeyword) && KeywordAt(input, RuntimeKeyword))
  {
    if KeywordAt(input, TemplateKeyword) {
      assert input[3] == input[..|TemplateKeyword|][3] == 't';
      assert input[..|RuntimeKeyword|][3] != RuntimeKeyword[3];
    }
  }
}

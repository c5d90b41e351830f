/** The arguments of `#[objrs(impl ...)]` (`ImplAttr`):
    `impl [, class_name = "S"] [, protocol_name = "S" | , category_name = "S"] [, extern] [,]`,
    each optional clause tried once, in this order, and skipped without consuming anything when
    it does not match. */
module ImplAttribute {
  import opened Descriptors

  /** The tokens the grammar distinguishes: the `impl` and `extern` keywords, `,`, `=`, other
      identifiers (custom keywords such as `class_name` among them) and string literals. */
  datatype Token = ImplKeyword | ExternKeyword | Comma | Equals | Ident(name: string) | StrLit(value: string)

  datatype ImplAttr = ImplAttr(className: Option<string>, traitName: Option<string>, forceExtern: bool)

  /** A parse result and the tokens left after it. */
  datatype Parsed<T> = Parsed(value: T, rest: seq<Token>)

  /** The two spellings of the trait-name clause; they set the same field. */
  datatype TraitKeyword = ProtocolName | CategoryName

  function TraitKeywordName(k: TraitKeyword): string {
    match k
    case ProtocolName => "protocol_name"
    case CategoryName => "category_name"
  }

  /** `custom_keyword!(<keyword>) >> punct!(=) >> syn!(LitStr)`. */
  function KeyValue(ts: seq<Token>, keyword: string): Option<Parsed<string>> {
    if |ts| >= 3 && ts[0] == Ident(keyword) && ts[1] == Equals && ts[2].StrLit? then
      Some(Parsed(ts[2].value, ts[3..]))
    else None
  }

  /** `, class_name = "S"`. */
  function ClassNameClause(ts: seq<Token>): Option<Parsed<string>> {
    if |ts| >= 1 && ts[0] == Comma then KeyValue(ts[1..], "class_name") else None
  }

  /** `, protocol_name = "S"` or `, category_name = "S"` (the first alternative tried first). */
  function TraitNameClause(ts: seq<Token>): Option<Parsed<string>> {
    if |ts| >= 1 && ts[0] == Comma then
      var protocol := KeyValue(ts[1..], TraitKeywordName(ProtocolName));
      if protocol.Some? then protocol else KeyValue(ts[1..], TraitKeywordName(CategoryName))
    else None
  }

  /** `, extern`. */
  function ExternClause(ts: seq<Token>): Option<Parsed<()>> {
    if |ts| >= 2 && ts[0] == Comma && ts[1] == ExternKeyword then Some(Parsed((), ts[2..])) else None
  }

  /** `option!(p)`: the clause's value if it matched, otherwise nothing and no token consumed. */
  function Optional<T>(r: Option<Parsed<T>>, ts: seq<Token>): Parsed<Option<T>> {
    if r.Some? then Parsed(Some(r.value.value), r.value.rest) else Parsed(None, ts)
  }

  /** Parses the attribute from the front of `ts`, returning the attribute and what is left. */
  function ParseImplAttr(ts: seq<Token>): (r: Option<Parsed<ImplAttr>>)
    ensures r.Some? <==> |ts| > 0 && ts[0] == ImplKeyword
  {
    if |ts| == 0 || ts[0] != ImplKeyword then None
    else
      var name := Optional(ClassNameClause(ts[1..]), ts[1..]);
      var traitName := Optional(TraitNameClause(name.rest), name.rest);
      var forceExtern := Optional(ExternClause(traitName.rest), traitName.rest);
      Some(Parsed(ImplAttr(name.value, traitName.value, forceExtern.value.Some?), SkipComma(forceExtern.rest)))
  }

  /** `option!(punct!(,))`. */
  function SkipComma(ts: seq<Token>): seq<Token> {
    if |ts| >= 1 && ts[0] == Comma then ts[1..] else ts
  }

  /** The canonical spelling of an attribute, without a trailing comma; `k` picks the spelling
      of the trait-name clause. */
  function RenderImplAttr(a: ImplAttr, k: TraitKeyword): seq<Token> {
    [ImplKeyword] + (ClassPart(a) + (TraitPart(a, k) + ExternPart(a)))
  }

  function ClassPart(a: ImplAttr): seq<Token> {
    if a.className.Some? then [Comma, Ident("class_name"), Equals, StrLit(a.className.value)] else []
  }

  function TraitPart(a: ImplAttr, k: TraitKeyword): seq<Token> {
    if a.traitName.Some? then [Comma, Ident(TraitKeywordName(k)), Equals, StrLit(a.traitName.value)] else []
  }

  function ExternPart(a: ImplAttr): seq<Token> {
    if a.forceExtern then [Comma, ExternKeyword] else []
  }

  /** `rest` is what is left of `ts` after a prefix was consumed. */
  predicate IsSuffix(rest: seq<Token>, ts: seq<Token>) {
    |rest| <= |ts| && ts[|ts| - |rest|..] == rest
  }

  lemma SuffixTransitive(r1: seq<Token>, r2: seq<Token>, ts: seq<Token>)
    requires IsSuffix(r1, r2) && IsSuffix(r2, ts)
    ensures IsSuffix(r1, ts)
  {
    assert ts[|ts| - |r1|..] == ts[|ts| - |r2|..][|r2| - |r1|..];
  }

  lemma ClausesConsumePrefixes(ts: seq<Token>)
    ensures IsSuffix(Optional(ClassNameClause(ts), ts).rest, ts)
    ensures IsSuffix(Optional(TraitNameClause(ts), ts).rest, ts)
    ensures IsSuffix(Optional(ExternClause(ts), ts).rest, ts)
    ensures IsSuffix(SkipComma(ts), ts)
  {
    if |ts| >= 4 {
      assert ts[1..][3..] == ts[4..];
    }
  }

  /** The parser consumes a non-empty prefix of what it accepts. The first clause repeats
      `ParseImplAttr`'s own contract so that callers find both facts in one place. */
  lemma ParseConsumesPrefix(ts: seq<Token>)
    ensures ParseImplAttr(ts).Some? <==> |ts| > 0 && ts[0] == ImplKeyword
    ensures ParseImplAttr(ts).Some? ==>
              var rest := ParseImplAttr(ts).value.rest;
              |rest| < |ts| && ts[|ts| - |rest|..] == rest
  {
    if |ts| > 0 && ts[0] == ImplKeyword {
      var t1 := ts[1..];
      var name := Optional(ClassNameClause(t1), t1);
      var traitName := Optional(TraitNameClause(name.rest), name.rest);
      var forceExtern := Optional(ExternClause(traitName.rest), traitName.rest);
      var rest := SkipComma(forceExtern.rest);
      ClausesConsumePrefixes(t1);
      ClausesConsumePrefixes(name.rest);
      ClausesConsumePrefixes(traitName.rest);
      ClausesConsumePrefixes(forceExtern.rest);
      SuffixTransitive(traitName.rest, name.rest, t1);
      SuffixTransitive(forceExtern.rest, traitName.rest, t1);
      SuffixTransitive(rest, forceExtern.rest, t1);
      assert IsSuffix(t1, ts);
      SuffixTransitive(rest, t1, ts);
    }
  }

  /** What may follow the canonical spelling without being taken for one of its clauses:
      nothing, a non-comma, or a lone trailing comma. */
  predicate Unclaimed(rest: seq<Token>) {
    rest == [] || rest[0] != Comma || rest == [Comma]
  }

  lemma ClassNameStep(a: ImplAttr, k: TraitKeyword, rest: seq<Token>)
    requires Unclaimed(rest)
    ensures var after := TraitPart(a, k) + (ExternPart(a) + rest);
            Optional(ClassNameClause(ClassPart(a) + after), ClassPart(a) + after) == Parsed(a.className, after)
  {
    var after := TraitPart(a, k) + (ExternPart(a) + rest);
    if a.className.Some? {
      assert (ClassPart(a) + after)[1..][3..] == after;
    } else {
      assert ClassPart(a) + after == after;
      NoClassNameAfter(a, k, rest);
    }
  }

  /** What follows the class-name clause never starts with `, class_name`. */
  lemma NoClassNameAfter(a: ImplAttr, k: TraitKeyword, rest: seq<Token>)
    requires Unclaimed(rest)
    ensures ClassNameClause(TraitPart(a, k) + (ExternPart(a) + rest)) == None
  {
    var after := TraitPart(a, k) + (ExternPart(a) + rest);
    if a.traitName.Some? {
      assert after[1] == Ident(TraitKeywordName(k));
      KeywordsAreNotClassName(k);
    } else if a.forceExtern {
      assert after[1] == ExternKeyword;
    } else {
      assert after == rest;
    }
  }

  lemma KeywordsAreNotClassName(k: TraitKeyword)
    ensures TraitKeywordName(k) != "class_name"
  {
    assert TraitKeywordName(k)[1] != "class_name"[1];
  }

  lemma TraitNameStep(a: ImplAttr, k: TraitKeyword, rest: seq<Token>)
    requires Unclaimed(rest)
    ensures var after := ExternPart(a) + rest;
            Optional(TraitNameClause(TraitPart(a, k) + after), TraitPart(a, k) + after) == Parsed(a.traitName, after)
  {
    var after := ExternPart(a) + rest;
    if a.traitName.Some? {
      assert (TraitPart(a, k) + after)[1..] == [Ident(TraitKeywordName(k)), Equals, StrLit(a.traitName.value)] + after;
      assert (TraitPart(a, k) + after)[1..][3..] == after;
      assert TraitKeywordName(ProtocolName)[0] != TraitKeywordName(CategoryName)[0];
    } else {
      assert TraitPart(a, k) + after == after;
      if |after| >= 2 && after[0] == Comma {
        assert ExternPart(a) != [] && after[1] == ExternKeyword;
      }
    }
  }

  lemma ExternStep(a: ImplAttr, rest: seq<Token>)
    requires Unclaimed(rest)
    ensures Optional(ExternClause(ExternPart(a) + rest), ExternPart(a) + rest)
         == Parsed(if a.forceExtern then Some(()) else None, rest)
  {
    if a.forceExtern {
      assert (ExternPart(a) + rest)[2..] == rest;
    } else {
      assert ExternPart(a) + rest == rest;
    }
  }

  /** The three optional clauses of the canonical spelling are each recognised, in order,
      leaving `rest`. */
  lemma ClausesOfRendered(a: ImplAttr, k: TraitKeyword, rest: seq<Token>)
    requires Unclaimed(rest)
    ensures var ts := RenderImplAttr(a, k) + rest;
            var name := Optional(ClassNameClause(ts[1..]), ts[1..]);
            var traitName := Optional(TraitNameClause(name.rest), name.rest);
            var forceExtern := Optional(ExternClause(traitName.rest), traitName.rest);
            name.value == a.className && traitName.value == a.traitName
            && forceExtern.value.Some? == a.forceExtern && forceExtern.rest == rest
  {
    var ts := RenderImplAttr(a, k) + rest;
    assert ts[1..] == ClassPart(a) + (TraitPart(a, k) + (ExternPart(a) + rest));
    ClassNameStep(a, k, rest);
    TraitNameStep(a, k, rest);
    ExternStep(a, rest);
  }

  /** Parsing the canonical spelling gives the attribute back, whichever spelling of the trait
      clause is used, provided what follows does not begin with a comma (which the optional
      trailing comma would take). */
  lemma RenderParseRoundTrip(a: ImplAttr, k: TraitKeyword, rest: seq<Token>)
    requires rest == [] || rest[0] != Comma
    ensures ParseImplAttr(RenderImplAttr(a, k) + rest) == Some(Parsed(a, rest))
  {
    ClausesOfRendered(a, k, rest);
  }

  /** A trailing comma after the canonical spelling is accepted and consumed. */
  lemma TrailingCommaAccepted(a: ImplAttr, k: TraitKeyword)
    ensures ParseImplAttr(RenderImplAttr(a, k) + [Comma]) == Some(Parsed(a, []))
  {
    ClausesOfRendered(a, k, [Comma]);
    assert SkipComma([Comma]) == [];
  }

  /** The clauses are only recognised in their fixed order: `impl, extern, class_name = "Foo"`
      sets only `extern`, and the class-name clause is left unconsumed. */
  lemma ClauseOrderIsFixed()
    ensures ParseImplAttr([ImplKeyword, Comma, ExternKeyword, Comma, Ident("class_name"), Equals, StrLit("Foo")])
         == Some(Parsed(ImplAttr(None, None, true), [Ident("class_name"), Equals, StrLit("Foo")]))
  {
    var ts := [ImplKeyword, Comma, ExternKeyword, Comma, Ident("class_name"), Equals, StrLit("Foo")];
    assert ts[1..][2..][1..] == [Ident("class_name"), Equals, StrLit("Foo")];
  }

  /** The class-name clause takes exactly its canonical spelling, or nothing. */
  lemma ClassClauseRendered(ts: seq<Token>, a: ImplAttr)
    requires a.className == Optional(ClassNameClause(ts), ts).value
    ensures ts == ClassPart(a) + Optional(ClassNameClause(ts), ts).rest
  {
    if ClassNameClause(ts).Some? {
      assert ts == ts[..4] + ts[4..];
      assert ts[1..][3..] == ts[4..];
    }
  }

  /** The trait-name clause takes exactly the canonical spelling under one of its keywords, or
      nothing. */
  lemma TraitClauseRendered(ts: seq<Token>, a: ImplAttr) returns (k: TraitKeyword)
    requires a.traitName == Optional(TraitNameClause(ts), ts).value
    ensures ts == TraitPart(a, k) + Optional(TraitNameClause(ts), ts).rest
  {
    k := ProtocolName;
    if TraitNameClause(ts).Some? {
      if KeyValue(ts[1..], TraitKeywordName(ProtocolName)).None? {
        k := CategoryName;
      }
      assert ts == ts[..4] + ts[4..];
      assert ts[1..][3..] == ts[4..];
    }
  }

  /** The extern clause takes exactly `, extern`, or nothing. */
  lemma ExternClauseRendered(ts: seq<Token>, a: ImplAttr)
    requires a.forceExtern == Optional(ExternClause(ts), ts).value.Some?
    ensures ts == ExternPart(a) + Optional(ExternClause(ts), ts).rest
  {
    if ExternClause(ts).Some? {
      assert ts == ts[..2] + ts[2..];
    }
  }

  /** The optional trailing comma is taken exactly when present. */
  lemma CommaSkipped(ts: seq<Token>) returns (c: bool)
    ensures ts == (if c then [Comma] else []) + SkipComma(ts)
  {
    c := |ts| >= 1 && ts[0] == Comma;
    if c {
      assert ts == [ts[0]] + ts[1..];
    }
  }

  lemma Regrouped(ts: seq<Token>, p: seq<Token>, q: seq<Token>, r: seq<Token>, s: seq<Token>, x: seq<Token>)
    requires |ts| > 0 && ts[0] == ImplKeyword
    requires ts[1..] == p + (q + (r + (s + x)))
    ensures ts == [ImplKeyword] + (p + (q + r)) + s + x
  {
    assert ts == [ImplKeyword] + ts[1..];
  }

  /** Whatever the parser accepts is the canonical spelling of the attribute it returns, with
      one of the two trait keywords, then possibly a trailing comma, then the rest: the clauses
      are accepted only in their fixed order and each at most once. */
  lemma ParsedIsRendered(ts: seq<Token>) returns (k: TraitKeyword, c: bool)
    requires ParseImplAttr(ts).Some?
    ensures ts == RenderImplAttr(ParseImplAttr(ts).value.value, k) + (if c then [Comma] else [])
                  + ParseImplAttr(ts).value.rest
  {
    var a := ParseImplAttr(ts).value.value;
    var t1 := ts[1..];
    var name := Optional(ClassNameClause(t1), t1);
    var traitName := Optional(TraitNameClause(name.rest), name.rest);
    var forceExtern := Optional(ExternClause(traitName.rest), traitName.rest);
    ClassClauseRendered(t1, a);
    k := TraitClauseRendered(name.rest, a);
    ExternClauseRendered(traitName.rest, a);
    c := CommaSkipped(forceExtern.rest);
    Regrouped(ts, ClassPart(a), TraitPart(a, k), ExternPart(a), if c then [Comma] else [], ParseImplAttr(ts).value.rest);
  }
}

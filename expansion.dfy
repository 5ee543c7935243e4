/**
  What the `time` attribute macro of function-timer-macro/src/lib.rs produces,
  as pure functions over the syntax tree. The class in module Macro performs the
  same steps imperatively and is proved equal to these functions; the lemmas
  here state what the produced code looks like.

  This is the macro AS WRITTEN: its argument must be one string literal, and
  inside an `impl` block every method gets the block's metric name, and the
  owner type tag when the self type is a path, whatever `time` attribute the
  method carries itself.
*/
module Expansion {
  import opened Wrappers
  import opened Syntax

  // ---------------------------------------------------------------------
  // Attributes
  // ---------------------------------------------------------------------

  /** The identifier of the last segment of a path, if it has segments. */
  function LastIdent(path: seq<PathSegment>): Option<string> {
    if path == [] then None else Some(path[|path| - 1].ident)
  }

  /** An attribute is a `time` attribute when its path ends in `time` (`time`, `function_timer::time`). */
  predicate IsTimeAttribute(a: Attribute) {
    LastIdent(a.path) == Some("time")
  }

  /** `s` can be obtained from `t` by deleting elements: order is kept. */
  predicate IsSubsequence<T(==)>(s: seq<T>, t: seq<T>) {
    s == [] || (t != [] && ((s[0] == t[0] && IsSubsequence(s[1..], t[1..])) || IsSubsequence(s, t[1..])))
  }

  /**
    The attributes that are not `time` attributes, in their original order.
    Each attribute is kept as often as it occurs, or dropped entirely.
  */
  function RemoveTimeAttributes(attrs: seq<Attribute>): (r: seq<Attribute>)
    ensures IsSubsequence(r, attrs)
    ensures forall a :: multiset(r)[a] == if IsTimeAttribute(a) then 0 else multiset(attrs)[a]
  {
    if attrs == [] then []
    else
      var rest := RemoveTimeAttributes(attrs[1..]);
      assert attrs == [attrs[0]] + attrs[1..];
      if IsTimeAttribute(attrs[0]) then rest else [attrs[0]] + rest
  }

  lemma {:induction false} RemoveTimeAttributesKeepsPlainLists(attrs: seq<Attribute>)
    requires forall k :: 0 <= k < |attrs| ==> !IsTimeAttribute(attrs[k])
    ensures RemoveTimeAttributes(attrs) == attrs
  {
    if attrs != [] {
      RemoveTimeAttributesKeepsPlainLists(attrs[1..]);
    }
  }

  lemma {:induction false} RemoveTimeAttributesIdempotent(attrs: seq<Attribute>)
    ensures RemoveTimeAttributes(RemoveTimeAttributes(attrs)) == RemoveTimeAttributes(attrs)
  {
    var r := RemoveTimeAttributes(attrs);
    forall k | 0 <= k < |r| ensures !IsTimeAttribute(r[k]) {
      assert r[k] in multiset(r);
    }
    RemoveTimeAttributesKeepsPlainLists(r);
  }

  // ---------------------------------------------------------------------
  // The guard statement and the instrumented block
  // ---------------------------------------------------------------------

  /** The name the guard is bound to; it is never read. */
  const GuardBinding := "_guard"

  /** The path of the guard's constructor. */
  const GuardConstructor := ["function_timer", "FunctionTimer", "new"]

  /** The arguments the injected guard construction passes. */
  datatype GuardParams = GuardParams(metricName: string, structName: Option<string>, functionName: string)

  /** `Some("T")` or `None`, as a Rust expression. */
  function StructArg(structName: Option<string>): Expr {
    match structName
    case Some(st) => Call(PathExpr(["Some"]), [Lit(st)])
    case None => PathExpr(["None"])
  }

  /** `let _guard = function_timer::FunctionTimer::new(metric, struct, function);` */
  function GuardStmt(metricName: string, structName: Option<string>, functionName: string): Stmt {
    Local(GuardBinding, Call(PathExpr(GuardConstructor), [Lit(metricName), StructArg(structName), Lit(functionName)]))
  }

  /** Reads back the struct argument of a guard: `Some(Some(st))`, `Some(None)`, or `None` if malformed. */
  function DecodeStructArg(e: Expr): Option<Option<string>> {
    if e == PathExpr(["None"]) then Some(None)
    else if e.Call? && e.callee == PathExpr(["Some"]) && |e.args| == 1 && e.args[0].Lit? then Some(Some(e.args[0].value))
    else None
  }

  /** Reads back the arguments of a statement that constructs the guard, if it is one. */
  function GuardArgs(s: Stmt): Option<GuardParams> {
    if s.Local? && s.binding == GuardBinding && s.init.Call? && s.init.callee == PathExpr(GuardConstructor)
       && |s.init.args| == 3 && s.init.args[0].Lit? && s.init.args[2].Lit? && DecodeStructArg(s.init.args[1]).Some?
    then Some(GuardParams(s.init.args[0].value, DecodeStructArg(s.init.args[1]).value, s.init.args[2].value))
    else None
  }

  /** The guard a block constructs as its first statement, if any. */
  function GuardOf(b: Block): Option<GuardParams> {
    if b.stmts == [] then None else GuardArgs(b.stmts[0])
  }

  /** The original body inside an instrumented block: its second and last statement, a plain nested block as tail expression. */
  function OriginalBody(b: Block): Option<Block> {
    if |b.stmts| == 2 && GuardArgs(b.stmts[0]).Some? && b.stmts[1].ExprStmt? && b.stmts[1].expr.BlockExpr?
       && b.stmts[1].expr.attrs == [] && b.stmts[1].expr.blockLabel.None?
    then Some(b.stmts[1].expr.block)
    else None
  }

  /**
    The instrumented body: exactly two statements, the guard construction
    first, then the original block as the tail expression, so its value is
    the function's value.
  */
  function GuardedBlock(metricName: string, structName: Option<string>, functionName: string, block: Block): (r: Block)
    ensures |r.stmts| == 2
    ensures GuardOf(r) == Some(GuardParams(metricName, structName, functionName))
    ensures OriginalBody(r) == Some(block)
  {
    Block([GuardStmt(metricName, structName, functionName), ExprStmt(BlockExpr([], None, block))])
  }

  /** Two instrumented blocks are equal only when they were built from the same arguments. */
  lemma GuardedBlockInjective(m1: string, s1: Option<string>, f1: string, b1: Block,
                              m2: string, s2: Option<string>, f2: string, b2: Block)
    requires GuardedBlock(m1, s1, f1, b1) == GuardedBlock(m2, s2, f2, b2)
    ensures m1 == m2 && s1 == s2 && f1 == f2 && b1 == b2
  {
    var g1 := GuardedBlock(m1, s1, f1, b1);
    assert GuardOf(g1) == Some(GuardParams(m1, s1, f1));
    assert OriginalBody(g1) == Some(b1);
  }

  // ---------------------------------------------------------------------
  // Folding functions, methods and impl blocks
  // ---------------------------------------------------------------------

  /** A method of an `impl` block after folding: `time` attributes gone, body instrumented under its own name. */
  function FoldedMethod(metricName: string, structName: Option<string>, m: ImplItemMethod): (r: ImplItemMethod)
    ensures r.vis == m.vis && r.defaultness == m.defaultness && r.sig == m.sig
    ensures r.attrs == RemoveTimeAttributes(m.attrs)
    ensures GuardOf(r.block) == Some(GuardParams(metricName, structName, m.sig.ident))
    ensures OriginalBody(r.block) == Some(m.block)
  {
    m.(attrs := RemoveTimeAttributes(m.attrs), block := GuardedBlock(metricName, structName, m.sig.ident, m.block))
  }

  /** A free function after folding: attributes, visibility and signature untouched, body instrumented. */
  function FoldedFn(metricName: string, structName: Option<string>, f: ItemFn): (r: ItemFn)
    ensures r.attrs == f.attrs && r.vis == f.vis && r.sig == f.sig
    ensures GuardOf(r.block) == Some(GuardParams(metricName, structName, f.sig.ident))
    ensures OriginalBody(r.block) == Some(f.block)
  {
    ItemFn(f.attrs, f.vis, f.sig, GuardedBlock(metricName, structName, f.sig.ident, f.block))
  }

  /**
    The owner name recorded on entering an `impl` block: the last segment of a
    path self type (`impl a::Test<T>`, `impl MyTrait for Test` give "Test"); a
    self type that is not a path leaves the earlier value in place.
  */
  function ImplStructName(selfTy: Type, prior: Option<string>): (r: Option<string>)
    ensures selfTy.PathType? ==> (r.Some? <==> selfTy.segments != [])
    ensures selfTy.PathType? && r.Some? ==> r.value == selfTy.segments[|selfTy.segments| - 1].ident
    ensures selfTy.OtherType? ==> r == prior
  {
    match selfTy
    case PathType(segments) => LastIdent(segments)
    case OtherType(_) => prior
  }

  /** One item of an `impl` block after folding: methods are folded, anything else passes through. */
  function FoldedItem(metricName: string, structName: Option<string>, item: ImplItem): ImplItem {
    match item
    case Method(m) => Method(FoldedMethod(metricName, structName, m))
    case _ => item
  }

  function FoldedItems(metricName: string, structName: Option<string>, items: seq<ImplItem>): seq<ImplItem> {
    seq(|items|, k requires 0 <= k < |items| => FoldedItem(metricName, structName, items[k]))
  }

  /** An `impl` block after folding, given the owner name held before it was entered. */
  function FoldedImpl(metricName: string, prior: Option<string>, i: ItemImpl): (r: ItemImpl)
    ensures r.(items := i.items) == i
    ensures |r.items| == |i.items|
    ensures forall k :: 0 <= k < |i.items| && !i.items[k].Method? ==> r.items[k] == i.items[k]
    ensures forall k :: 0 <= k < |i.items| && i.items[k].Method? ==>
              r.items[k] == Method(FoldedMethod(metricName, ImplStructName(i.selfTy, prior), i.items[k].implMethod))
  {
    i.(items := FoldedItems(metricName, ImplStructName(i.selfTy, prior), i.items))
  }

  /**
    Folding an `impl` block keeps everything but its items; it keeps the
    number and order of the items, passes every non-method item through, and
    instruments every method under the block's metric name and owner name.
  */
  lemma FoldedImplShape(metricName: string, prior: Option<string>, i: ItemImpl, k: nat)
    requires k < |i.items|
    ensures var r := FoldedImpl(metricName, prior, i);
      && r.attrs == i.attrs && r.defaultness == i.defaultness && r.unsafety == i.unsafety
      && r.generics == i.generics && r.traitPath == i.traitPath && r.selfTy == i.selfTy
      && |r.items| == |i.items|
      && (!i.items[k].Method? ==> r.items[k] == i.items[k])
      && (i.items[k].Method? ==>
            && r.items[k].Method?
            && r.items[k].implMethod.sig == i.items[k].implMethod.sig
            && r.items[k].implMethod.vis == i.items[k].implMethod.vis
            && r.items[k].implMethod.defaultness == i.items[k].implMethod.defaultness
            && r.items[k].implMethod.attrs == RemoveTimeAttributes(i.items[k].implMethod.attrs)
            && GuardOf(r.items[k].implMethod.block)
               == Some(GuardParams(metricName, ImplStructName(i.selfTy, prior), i.items[k].implMethod.sig.ident))
            && OriginalBody(r.items[k].implMethod.block) == Some(i.items[k].implMethod.block))
  {
  }

  // ---------------------------------------------------------------------
  // Parsing the attribute argument and routing the item
  // ---------------------------------------------------------------------

  datatype ParseError =
    | ExpectedStringLiteral   // the argument does not start with a string literal (`disable`, an identifier, nothing)
    | UnexpectedToken         // a string literal followed by more tokens
    | ExpectedFunction        // the item is not a function, and does not start with `impl`

  /**
    The attribute argument: one string literal, whose value becomes the metric
    name. The owner name starts out absent.
  */
  function ParseMetricName(tokens: seq<Token>): (r: Result<string, ParseError>)
    ensures r.Ok? <==> |tokens| == 1 && tokens[0].StrLit?
    ensures r.Ok? ==> r.value == tokens[0].value
    ensures tokens != [] && tokens[0].Ident? ==> r == Err(ExpectedStringLiteral)
  {
    if tokens == [] || !tokens[0].StrLit? then Err(ExpectedStringLiteral)
    else if |tokens| > 1 then Err(UnexpectedToken)
    else Ok(tokens[0].value)
  }

  datatype ImplOrFn = Function(itemFn: ItemFn) | ImplStruct(itemImpl: ItemImpl)

  /**
    Whether the item's first token is the keyword `impl`: an impl block with no
    outer attribute and neither `default` nor `unsafe` in front.
  */
  predicate StartsWithImplToken(item: Item) {
    item.ImplBlock? && item.itemImpl.attrs == [] && !item.itemImpl.defaultness && !item.itemImpl.unsafety
  }

  /**
    The dispatch on the first token: `impl` leads to the impl parser, anything
    else to the function parser, which accepts only a function.
  */
  function ParseImplOrFn(item: Item): (r: Result<ImplOrFn, ParseError>)
    ensures r.Ok? <==> StartsWithImplToken(item) || item.FnItem?
    ensures r.Ok? && r.value.ImplStruct? ==> StartsWithImplToken(item) && item.itemImpl == r.value.itemImpl
    ensures r.Ok? && r.value.Function? ==> item == FnItem(r.value.itemFn)
  {
    if StartsWithImplToken(item) then Ok(ImplStruct(item.itemImpl))
    else if item.FnItem? then Ok(Function(item.itemFn))
    else Err(ExpectedFunction)
  }

  /** The whole expansion of `#[time(attr)] item`. */
  function Expand(attr: seq<Token>, item: Item): (r: Result<Item, ParseError>)
    ensures r.Ok? <==> ParseMetricName(attr).Ok? && ParseImplOrFn(item).Ok?
    ensures ParseMetricName(attr).Err? ==> r == Err(ParseMetricName(attr).error)
    ensures ParseMetricName(attr).Ok? && ParseImplOrFn(item).Err? ==> r == Err(ParseImplOrFn(item).error)
    ensures r.Ok? ==> (r.value.FnItem? <==> item.FnItem?) && !r.value.OtherItem?
  {
    match ParseMetricName(attr)
    case Err(e) => Err(e)
    case Ok(metricName) =>
      match ParseImplOrFn(item)
      case Err(e) => Err(e)
      case Ok(Function(f)) => Ok(FnItem(FoldedFn(metricName, None, f)))
      case Ok(ImplStruct(i)) => Ok(ImplBlock(FoldedImpl(metricName, None, i)))
  }

  /**
    A directly annotated free function is instrumented with no owner tag, under
    its own identifier and the literal's value, its body kept verbatim.
  */
  lemma ExpandFreeFunction(attr: seq<Token>, f: ItemFn)
    ensures Expand(attr, FnItem(f)).Ok? <==> |attr| == 1 && attr[0].StrLit?
    ensures Expand(attr, FnItem(f)).Ok? ==>
      var out := Expand(attr, FnItem(f)).value;
      && out.FnItem?
      && out.itemFn.sig == f.sig && out.itemFn.attrs == f.attrs && out.itemFn.vis == f.vis
      && GuardOf(out.itemFn.block) == Some(GuardParams(attr[0].value, None, f.sig.ident))
      && OriginalBody(out.itemFn.block) == Some(f.block)
  {
  }

  /**
    An `impl` block is instrumented method by method with the owner name taken
    from its self type; the owner tag is present exactly when that type is a
    non-empty path. Items other than methods pass through.
  */
  lemma ExpandImplBlock(attr: seq<Token>, i: ItemImpl, k: nat)
    requires StartsWithImplToken(ImplBlock(i))
    requires k < |i.items| && i.items[k].Method?
    ensures Expand(attr, ImplBlock(i)).Ok? <==> |attr| == 1 && attr[0].StrLit?
    ensures Expand(attr, ImplBlock(i)).Ok? ==>
      var out := Expand(attr, ImplBlock(i)).value;
      && out.ImplBlock? && |out.itemImpl.items| == |i.items| && out.itemImpl.items[k].Method?
      && var g := GuardOf(out.itemImpl.items[k].implMethod.block);
      && g.Some? && g.value.metricName == attr[0].value
      && g.value.functionName == i.items[k].implMethod.sig.ident
      && (g.value.structName.Some? <==> i.selfTy.PathType? && i.selfTy.segments != [])
      && (g.value.structName.Some? ==> g.value.structName.value == i.selfTy.segments[|i.selfTy.segments| - 1].ident)
  {
    if |attr| == 1 && attr[0].StrLit? {
      FoldedImplShape(attr[0].value, None, i, k);
    }
  }

  /** The owner tag appears in the output only when the expansion went through an `impl` block. */
  lemma StructTagOnlyThroughImpl(attr: seq<Token>, item: Item)
    requires Expand(attr, item).Ok?
    ensures item.FnItem? <==> Expand(attr, item).value.FnItem?
    ensures Expand(attr, item).value.FnItem? ==> GuardOf(Expand(attr, item).value.itemFn.block).value.structName.None?
    ensures Expand(attr, item).value.ImplBlock? ==> StartsWithImplToken(item)
  {
  }

  /** `impl MyTrait for Test` under `#[time("trait_metric")]`: the trait method is tagged with "Test". */
  lemma TraitImplExample(body: Block)
    ensures
      var m := ImplItemMethod([], Inherited, false, Signature("trait_function", []), body);
      var i := ItemImpl([], false, false, [], Some([PathSegment("MyTrait", [])]),
                        PathType([PathSegment("Test", [])]),
                        [TypeAlias([Ident("type"), Ident("Output")]), Method(m)]);
      var out := Expand([StrLit("trait_metric")], ImplBlock(i));
      && out.Ok? && out.value.ImplBlock?
      && out.value.itemImpl.items[0] == i.items[0]
      && GuardOf(out.value.itemImpl.items[1].implMethod.block)
         == Some(GuardParams("trait_metric", Some("Test"), "trait_function"))
  {
  }
}

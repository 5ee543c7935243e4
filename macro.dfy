/**
  The `time` attribute macro of function-timer-macro/src/lib.rs as the program
  runs it: the parsed argument is an object whose owner name the `impl` fold
  overwrites, the instrumented block is assembled statement by statement, and
  the `impl` fold walks the items with a loop. Each method is proved equal to
  the function of module Expansion that describes its result.
*/
module Macro {
  import opened Wrappers
  import opened Syntax
  import opened Expansion

  /** The parsed attribute argument, carried through the fold. */
  class MetricName {
    /** The owner type name; set when an `impl` block is entered. */
    var structName: Option<string>
    /** The value of the string literal given as argument. */
    var name: string

    /** The result of parsing: the owner name starts out absent. */
    constructor (name: string)
      ensures this.name == name && structName == None
    {
      this.name := name;
      structName := None;
    }

    /** Builds the two-statement instrumented block around `block`. */
    method BlockFrom(block: Block, functionName: string) returns (r: Block)
      ensures r == GuardedBlock(name, structName, functionName, block)
    {
      var statements: seq<Stmt> := [];
      var metricName := name;
      var st := structName;
      var newFn := PathExpr(GuardConstructor);
      var macroStmt;
      if st.Some? {
        macroStmt := Local(GuardBinding, Call(newFn, [Lit(metricName), Call(PathExpr(["Some"]), [Lit(st.value)]), Lit(functionName)]));
      } else {
        macroStmt := Local(GuardBinding, Call(newFn, [Lit(metricName), PathExpr(["None"]), Lit(functionName)]));
      }
      statements := statements + [macroStmt];
      statements := statements + [ExprStmt(BlockExpr([], None, block))];
      r := Block(statements);
    }

    /** Folds one method of an `impl` block: drops its `time` attributes and instruments its body. */
    method FoldImplItemMethod(i: ImplItemMethod) returns (r: ImplItemMethod)
      ensures r == FoldedMethod(name, structName, i)
    {
      var result := i;
      var block := i.block;
      var functionName := i.sig.ident;
      var newAttrs := RemoveTimeAttributes(i.attrs);
      result := result.(attrs := newAttrs);
      var newBlock := BlockFrom(block, functionName);
      result := result.(block := newBlock);
      r := result;
    }

    /** Folds a free function: only its body changes. */
    method FoldItemFn(i: ItemFn) returns (r: ItemFn)
      ensures r == FoldedFn(name, structName, i)
    {
      var block := i.block;
      var functionName := i.sig.ident;
      var newBlock := BlockFrom(block, functionName);
      r := ItemFn(i.attrs, i.vis, i.sig, newBlock);
    }

    /**
      Folds an `impl` block: records the owner name from the self type, then
      folds each method in turn and passes other items through.
    */
    method FoldItemImpl(i: ItemImpl) returns (r: ItemImpl)
      modifies this
      ensures name == old(name)
      ensures structName == ImplStructName(i.selfTy, old(structName))
      ensures r == FoldedImpl(name, old(structName), i)
    {
      var newItems: seq<ImplItem> := [];
      var result := i;
      if i.selfTy.PathType? {
        structName := LastIdent(i.selfTy.segments);
      }
      var k := 0;
      while k < |i.items|
        invariant k <= |i.items|
        invariant name == old(name) && structName == ImplStructName(i.selfTy, old(structName))
        invariant |newItems| == k
        invariant forall j :: 0 <= j < k ==> newItems[j] == FoldedItem(name, structName, i.items[j])
      {
        var item := i.items[k];
        if item.Method? {
          var folded := FoldImplItemMethod(item.implMethod);
          newItems := newItems + [Method(folded)];
        } else {
          newItems := newItems + [item];
        }
        k := k + 1;
      }
      result := result.(items := newItems);
      r := result;
    }
  }

  /**
    The attribute macro `#[time(attr)] item`: parse the argument, route the item
    on its first token, and fold it; a parse failure becomes the error.
  */
  method Time(attr: seq<Token>, item: Item) returns (out: Result<Item, ParseError>)
    ensures out == Expand(attr, item)
  {
    var parsed := ParseMetricName(attr);
    if parsed.Err? {
      return Err(parsed.error);
    }
    var args := new MetricName(parsed.value);
    var input := ParseImplOrFn(item);
    if input.Err? {
      return Err(input.error);
    }
    match input.value
    case Function(itemFn) =>
      var output := args.FoldItemFn(itemFn);
      out := Ok(FnItem(output));
    case ImplStruct(implStruct) =>
      var output := args.FoldItemImpl(implStruct);
      out := Ok(ImplBlock(output));
  }
}

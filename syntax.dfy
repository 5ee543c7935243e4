/**
  The slice of Rust's syntax tree that the `time` attribute macro reads and
  rebuilds: attributes, paths, the expressions and statements of the guard it
  injects, function items, `impl` blocks and their items. Everything the macro
  passes through without looking at is kept as an opaque token list, so that
  "unchanged" means equal as a value.
*/
module Syntax {
  import opened Wrappers

  /** A token of an attribute argument list. */
  datatype Token =
    | StrLit(value: string)     // a string literal, already unescaped
    | Ident(name: string)       // an identifier or keyword
    | Punct(symbol: char)       // a punctuation character
    | OtherLit(text: string)    // any other literal (integer, char, byte string, ...)

  /** One `::`-separated segment of a path, with its generic arguments. */
  datatype PathSegment = PathSegment(ident: string, arguments: seq<Token>)

  /** An outer attribute `#[path args]`. */
  datatype Attribute = Attribute(path: seq<PathSegment>, tokens: seq<Token>)

  datatype Visibility = Public | Crate | Restricted(path: seq<PathSegment>) | Inherited

  /** A function signature; only the identifier is ever read by the macro. */
  datatype Signature = Signature(ident: string, rest: seq<Token>)

  datatype Expr =
    | Lit(value: string)                                        // a string literal expression
    | PathExpr(segments: seq<string>)                           // `a::b::c`
    | Call(callee: Expr, args: seq<Expr>)                       // `f(args)`
    | BlockExpr(attrs: seq<Attribute>, blockLabel: Option<string>, block: Block)
    | Verbatim(tokens: seq<Token>)                              // anything else

  datatype Stmt =
    | Local(binding: string, init: Expr)   // `let binding = init;`
    | ExprStmt(expr: Expr)                 // a tail expression, no semicolon
    | Semi(expr: Expr)                     // `expr;`
    | ItemStmt(tokens: seq<Token>)         // a nested item

  datatype Block = Block(stmts: seq<Stmt>)

  /** `fn` item: `attrs vis sig block`. */
  datatype ItemFn = ItemFn(attrs: seq<Attribute>, vis: Visibility, sig: Signature, block: Block)

  /** A method inside an `impl` block. */
  datatype ImplItemMethod =
    ImplItemMethod(attrs: seq<Attribute>, vis: Visibility, defaultness: bool, sig: Signature, block: Block)

  datatype ImplItem =
    | Method(implMethod: ImplItemMethod)
    | Const(tokens: seq<Token>)
    | TypeAlias(tokens: seq<Token>)
    | Macro(tokens: seq<Token>)
    | VerbatimItem(tokens: seq<Token>)

  /** The self type of an `impl`: a path such as `a::Test<T>`, or any other type. */
  datatype Type = PathType(segments: seq<PathSegment>) | OtherType(tokens: seq<Token>)

  /**
    An `impl` block. `attrs` holds its outer attributes only, those written
    before `impl`; inner `#![...]` attributes of the body are not represented.
  */
  datatype ItemImpl = ItemImpl(
    attrs: seq<Attribute>,
    defaultness: bool,
    unsafety: bool,
    generics: seq<Token>,
    traitPath: Option<seq<PathSegment>>,
    selfTy: Type,
    items: seq<ImplItem>)

  /** The item an attribute macro is applied to. */
  datatype Item =
    | FnItem(itemFn: ItemFn)
    | ImplBlock(itemImpl: ItemImpl)
    | OtherItem(tokens: seq<Token>)   // struct, enum, mod, ...: neither a function nor an impl
}

/**
  DIRECTIVE RESOLUTION AS THE TESTS AND THE CRATE DOCUMENTATION DESCRIBE IT.

  The macro source modelled in modules Expansion and Macro is an earlier
  iteration: it accepts only a string literal, and inside an `impl` block it
  applies the block's metric name, and the owner tag when the self type is a
  path, to every method. The crate
  documentation (function-timer/src/lib.rs:6-12) and the tests describe a later
  behaviour, stated here on its own and NOT used by the model of the macro:

  - an argument may be a string literal, an identifier naming a string
    constant, or the token `disable`;
  - a method's own directive overrides its block's and carries no owner tag;
  - a method without one inherits the block's, with the owner tag;
  - `disable` suppresses a method and is refused on a whole `impl` block.

  The last section compares the two.
*/
module Resolution {
  import opened Wrappers
  import opened Syntax
  import opened Expansion

  /** A metric name argument: a literal, or the identifier of a string constant. */
  datatype NameExpr = Literal(value: string) | Constant(ident: string)

  datatype Directive = Named(name: NameExpr) | Disabled

  /** The decision for one callable: instrument it under a name and optional owner tag, or leave it alone. */
  datatype Effective = Emit(metricName: string, ownerType: Option<string>) | Suppress

  datatype ResolutionError = DisableNotAllowedOnCollection | InvalidMetricNameExpression

  /** A method of an `impl` block, with the directive of its own `time` attribute if it has one. */
  datatype MethodDecl = MethodDecl(name: string, own: Option<Directive>, body: Block)

  /** The three argument forms; any other shape is refused. */
  function ParseDirective(tokens: seq<Token>): (r: Result<Directive, ResolutionError>)
    ensures r.Ok? <==> |tokens| == 1 && (tokens[0].StrLit? || tokens[0].Ident?)
    ensures r == Ok(Disabled) <==> tokens == [Ident("disable")]
    ensures r.Ok? && tokens[0].StrLit? ==> r.value == Named(Literal(tokens[0].value))
    ensures |tokens| == 1 && tokens[0].Ident? && tokens[0].name != "disable" ==> r == Ok(Named(Constant(tokens[0].name)))
    ensures r.Err? ==> r.error == InvalidMetricNameExpression
  {
    if |tokens| != 1 then Err(InvalidMetricNameExpression)
    else match tokens[0]
      case StrLit(v) => Ok(Named(Literal(v)))
      case Ident(x) => if x == "disable" then Ok(Disabled) else Ok(Named(Constant(x)))
      case _ => Err(InvalidMetricNameExpression)
  }

  /** The string a name argument stands for; `constants` binds the string constants in scope. */
  function ResolveName(n: NameExpr, constants: map<string, string>): Result<string, ResolutionError> {
    match n
    case Literal(v) => Ok(v)
    case Constant(x) => if x in constants then Ok(constants[x]) else Err(InvalidMetricNameExpression)
  }

  /** A directive attached to the callable itself: never an owner tag. */
  function ResolveOwn(d: Directive, constants: map<string, string>): Result<Effective, ResolutionError> {
    match d
    case Disabled => Ok(Suppress)
    case Named(n) =>
      match ResolveName(n, constants)
      case Ok(v) => Ok(Emit(v, None))
      case Err(e) => Err(e)
  }

  /** A free function: instrumented only under its own directive. */
  function ResolveFree(own: Option<Directive>, constants: map<string, string>): (r: Result<Effective, ResolutionError>)
    ensures own.None? ==> r == Ok(Suppress)
    ensures own == Some(Disabled) ==> r == Ok(Suppress)
    ensures own.Some? && own.value.Named? && own.value.name.Literal? ==> r == Ok(Emit(own.value.name.value, None))
    ensures own.Some? && own.value.Named? && own.value.name.Constant? ==>
              (r.Ok? <==> own.value.name.ident in constants)
              && (r.Ok? ==> r.value == Emit(constants[own.value.name.ident], None))
    ensures r.Err? ==> r.error == InvalidMetricNameExpression
  {
    match own
    case None => Ok(Suppress)
    case Some(d) => ResolveOwn(d, constants)
  }

  /** A method of a block owned by `ownerType`: its own directive wins outright; otherwise it inherits. */
  function ResolveMethod(own: Option<Directive>, collection: Option<Directive>, ownerType: string,
                         constants: map<string, string>): (r: Result<Effective, ResolutionError>)
    ensures own.Some? ==> r == ResolveFree(own, constants)
    ensures own.None? && collection.None? ==> r == Ok(Suppress)
    ensures own.None? && collection == Some(Disabled) ==> r == Err(DisableNotAllowedOnCollection)
    ensures own.None? && collection.Some? && collection.value.Named? && collection.value.name.Literal? ==>
              r == Ok(Emit(collection.value.name.value, Some(ownerType)))
    ensures own.None? && collection.Some? && collection.value.Named? && collection.value.name.Constant? ==>
              (r.Ok? <==> collection.value.name.ident in constants)
              && (r.Ok? ==> r.value == Emit(constants[collection.value.name.ident], Some(ownerType)))
    ensures r.Err? && !(own.None? && collection == Some(Disabled)) ==> r.error == InvalidMetricNameExpression
    ensures r.Ok? && r.value.Emit? && r.value.ownerType.Some? ==> own.None? && r.value.ownerType == Some(ownerType)
  {
    match own
    case Some(d) => ResolveOwn(d, constants)
    case None =>
      match collection
      case None => Ok(Suppress)
      case Some(Disabled) => Err(DisableNotAllowedOnCollection)
      case Some(Named(n)) =>
        match ResolveName(n, constants)
        case Ok(v) => Ok(Emit(v, Some(ownerType)))
        case Err(e) => Err(e)
  }

  /** Resolves the methods in order; the first failure stops the walk. */
  function ResolveMembers(members: seq<MethodDecl>, collection: Option<Directive>, ownerType: string,
                          constants: map<string, string>): (r: Result<seq<Effective>, ResolutionError>)
    ensures r.Ok? <==> forall k :: 0 <= k < |members| ==> ResolveMethod(members[k].own, collection, ownerType, constants).Ok?
    ensures r.Ok? ==> |r.value| == |members|
    ensures r.Ok? ==> forall k :: 0 <= k < |members| ==>
              r.value[k] == ResolveMethod(members[k].own, collection, ownerType, constants).value
    ensures r.Err? ==> exists k :: 0 <= k < |members| && ResolveMethod(members[k].own, collection, ownerType, constants) == Err(r.error)
                                 && forall j :: 0 <= j < k ==> ResolveMethod(members[j].own, collection, ownerType, constants).Ok?
  {
    if members == [] then Ok([])
    else
      match ResolveMethod(members[0].own, collection, ownerType, constants)
      case Err(e) => Err(e)
      case Ok(first) =>
        match ResolveMembers(members[1..], collection, ownerType, constants)
        case Err(e) => Err(e)
        case Ok(rest) => Ok([first] + rest)
  }

  /** A whole `impl` block: `disable` on the block is refused before any method is looked at. */
  function ResolveCollection(ownerType: string, collection: Option<Directive>, members: seq<MethodDecl>,
                             constants: map<string, string>): (r: Result<seq<Effective>, ResolutionError>)
    ensures collection == Some(Disabled) ==> r == Err(DisableNotAllowedOnCollection)
    ensures r.Ok? <==> collection != Some(Disabled)
                       && forall k :: 0 <= k < |members| ==> ResolveMethod(members[k].own, collection, ownerType, constants).Ok?
    ensures r.Err? && collection != Some(Disabled) ==>
              exists k :: 0 <= k < |members| && ResolveMethod(members[k].own, collection, ownerType, constants) == Err(r.error)
                          && forall j :: 0 <= j < k ==> ResolveMethod(members[j].own, collection, ownerType, constants).Ok?
    ensures r.Ok? ==> |r.value| == |members|
    ensures r.Ok? ==> forall k :: 0 <= k < |members| ==>
              ResolveMethod(members[k].own, collection, ownerType, constants) == Ok(r.value[k])
  {
    if collection == Some(Disabled) then Err(DisableNotAllowedOnCollection)
    else ResolveMembers(members, collection, ownerType, constants)
  }

  /** The body a callable gets for its decision: untouched when suppressed, wrapped with a guard otherwise. */
  function Inject(e: Effective, functionName: string, body: Block): (r: Block)
    ensures e.Suppress? ==> r == body
    ensures e.Emit? ==> GuardOf(r) == Some(GuardParams(e.metricName, e.ownerType, functionName))
    ensures e.Emit? ==> OriginalBody(r) == Some(body)
  {
    match e
    case Suppress => body
    case Emit(m, o) => GuardedBlock(m, o, functionName, body)
  }

  // ---------------------------------------------------------------------
  // Properties of the resolution
  // ---------------------------------------------------------------------

  /** A method's own directive decides alone: the block's directive and owner name make no difference. */
  lemma OwnDirectiveOverrides(d: Directive, c1: Option<Directive>, c2: Option<Directive>, t1: string, t2: string,
                              constants: map<string, string>)
    ensures ResolveMethod(Some(d), c1, t1, constants) == ResolveMethod(Some(d), c2, t2, constants)
    ensures ResolveMethod(Some(d), c1, t1, constants) == ResolveFree(Some(d), constants)
  {
  }

  /** The owner tag is present exactly when the decision was inherited from a named block directive. */
  lemma OwnerTagIffInherited(own: Option<Directive>, collection: Option<Directive>, ownerType: string,
                             constants: map<string, string>)
    requires ResolveMethod(own, collection, ownerType, constants).Ok?
    ensures var e := ResolveMethod(own, collection, ownerType, constants).value;
      (e.Emit? && e.ownerType.Some?) <==> (own.None? && collection.Some? && collection.value.Named?)
    ensures var e := ResolveMethod(own, collection, ownerType, constants).value;
      e.Emit? && e.ownerType.Some? ==> e.ownerType.value == ownerType
  {
  }

  /** No directive, or `disable`, leaves the body exactly as written: no guard, no observation. */
  lemma SuppressionLeavesBody(m: MethodDecl, collection: Option<Directive>, ownerType: string,
                              constants: map<string, string>)
    requires m.own == None || m.own == Some(Disabled)
    requires collection == None || m.own == Some(Disabled)
    ensures ResolveMethod(m.own, collection, ownerType, constants) == Ok(Suppress)
    ensures Inject(ResolveMethod(m.own, collection, ownerType, constants).value, m.name, m.body) == m.body
    ensures ResolveFree(m.own, constants) == Ok(Suppress)
  {
  }

  /** `disable` on a whole block fails, whatever its methods are. */
  lemma CollectionDisableRejected(ownerType: string, members: seq<MethodDecl>, constants: map<string, string>)
    ensures ResolveCollection(ownerType, Some(Disabled), members, constants) == Err(DisableNotAllowedOnCollection)
  {
  }

  /** Naming a constant bound to "v" behaves as the literal "v", on a method and on its block. */
  lemma ConstantActsAsLiteral(x: string, own: bool, collection: Option<Directive>, ownerType: string,
                              constants: map<string, string>)
    requires x in constants
    ensures own ==>
      ResolveMethod(Some(Named(Constant(x))), collection, ownerType, constants)
      == ResolveMethod(Some(Named(Literal(constants[x]))), collection, ownerType, constants)
    ensures !own ==>
      ResolveMethod(None, Some(Named(Constant(x))), ownerType, constants)
      == ResolveMethod(None, Some(Named(Literal(constants[x]))), ownerType, constants)
  {
  }

  /** An unbound identifier is refused, never silently suppressed. */
  lemma UnboundConstantRejected(x: string, collection: Option<Directive>, ownerType: string,
                                constants: map<string, string>)
    requires x !in constants
    ensures ResolveMethod(Some(Named(Constant(x))), collection, ownerType, constants) == Err(InvalidMetricNameExpression)
  {
  }

  /**
    The documented `impl Test` block under `#[time("my_metric")]`:
    `impl_function` overrides with `#[time("override_my_metric")]`, while
    `impl_fail_function` and `static_function` inherit.
  */
  lemma DocumentedBlockExample(b1: Block, b2: Block, b3: Block)
    ensures ResolveCollection("Test", Some(Named(Literal("my_metric"))),
              [MethodDecl("impl_function", Some(Named(Literal("override_my_metric"))), b1),
               MethodDecl("impl_fail_function", None, b2),
               MethodDecl("static_function", None, b3)], map[])
            == Ok([Emit("override_my_metric", None), Emit("my_metric", Some("Test")), Emit("my_metric", Some("Test"))])
  {
    var members := [MethodDecl("impl_function", Some(Named(Literal("override_my_metric"))), b1),
                    MethodDecl("impl_fail_function", None, b2),
                    MethodDecl("static_function", None, b3)];
    var c := Some(Named(Literal("my_metric")));
    var expected := [Emit("override_my_metric", None), Emit("my_metric", Some("Test")), Emit("my_metric", Some("Test"))];
    forall k | 0 <= k < 3 ensures ResolveMethod(members[k].own, c, "Test", map[]) == Ok(expected[k]) {
    }
    var r := ResolveMembers(members, c, "Test", map[]);
    assert r.Ok? && |r.value| == 3;
    assert r.value == expected;
  }

  /**
    The `impl Test` block of test_time_disable.rs under `#[time("my_metric")]` with
    `#[time(disable)]` on `disable`: `test` inherits with the owner tag and
    `disable` is left alone.
  */
  lemma DisableExample(b1: Block, b2: Block)
    ensures ResolveCollection("Test", Some(Named(Literal("my_metric"))),
              [MethodDecl("test", None, b1), MethodDecl("disable", Some(Disabled), b2)], map[])
            == Ok([Emit("my_metric", Some("Test")), Suppress])
  {
    var members := [MethodDecl("test", None, b1), MethodDecl("disable", Some(Disabled), b2)];
    var c := Some(Named(Literal("my_metric")));
    var expected := [Emit("my_metric", Some("Test")), Suppress];
    forall k | 0 <= k < 2 ensures ResolveMethod(members[k].own, c, "Test", map[]) == Ok(expected[k]) {
    }
    var r := ResolveMembers(members, c, "Test", map[]);
    assert r.Ok? && |r.value| == 2;
    assert r.value == expected;
  }

  // ---------------------------------------------------------------------
  // The macro as written, compared with the resolution
  // ---------------------------------------------------------------------

  /** Every argument the parser as written in function-timer-macro/src/lib.rs accepts is read the same way by the resolution. */
  lemma ParsersAgreeOnLiterals(tokens: seq<Token>)
    requires ParseMetricName(tokens).Ok?
    ensures ParseDirective(tokens) == Ok(Named(Literal(ParseMetricName(tokens).value)))
  {
  }

  /** The `disable` token and the identifier form are refused only by the parser as written in function-timer-macro/src/lib.rs. */
  lemma ParsersDisagreeOnIdentifiers(x: string)
    ensures ParseMetricName([Ident(x)]) == Err(ExpectedStringLiteral)
    ensures ParseDirective([Ident(x)]).Ok?
  {
  }

  /**
    For a method with no `time` attribute of its own, folding an `impl` block
    whose self type is a non-empty path under a literal gives the body the
    resolution asks for.
  */
  lemma FoldAgreesWhenInherited(metricName: string, i: ItemImpl, k: nat, constants: map<string, string>)
    requires i.selfTy.PathType? && i.selfTy.segments != []
    requires k < |i.items| && i.items[k].Method?
    ensures var owner := i.selfTy.segments[|i.selfTy.segments| - 1].ident;
            var m := i.items[k].implMethod;
            var e := ResolveMethod(None, Some(Named(Literal(metricName))), owner, constants);
      && e.Ok?
      && FoldedImpl(metricName, None, i).items[k].implMethod.block == Inject(e.value, m.sig.ident, m.block)
  {
  }

  /**
    When the self type is not a path, as in `impl MyTrait for &Test`, the macro's
    `impl` fold gives an inherited method no owner tag, while the resolution
    tags it with the owner type.
  */
  lemma FoldUntaggedOnOtherSelfType(body: Block)
    ensures
      var m := ImplItemMethod([], Inherited, false, Signature("f", []), body);
      var i := ItemImpl([], false, false, [], Some([PathSegment("MyTrait", [])]),
                        OtherType([Punct('&'), Ident("Test")]), [Method(m)]);
      && GuardOf(FoldedImpl("m", None, i).items[0].implMethod.block) == Some(GuardParams("m", None, "f"))
      && ResolveMethod(None, Some(Named(Literal("m"))), "Test", map[]) == Ok(Emit("m", Some("Test")))
  {
  }

  /**
    With its own `#[time("other_metric")]`, `static_function` of `impl Test`
    under `#[time("my_metric")]` is instrumented by the macro's `impl` fold under the
    block's name with the owner tag, where the resolution asks for its own name
    and no tag.
  */
  lemma FoldIgnoresOwnDirective(body: Block)
    ensures
      var own := Attribute([PathSegment("time", [])], [StrLit("other_metric")]);
      var m := ImplItemMethod([own], Public, false, Signature("static_function", []), body);
      var i := ItemImpl([], false, false, [], None, PathType([PathSegment("Test", [])]), [Method(m)]);
      var folded := FoldedImpl("my_metric", None, i).items[0].implMethod;
      && folded.attrs == []
      && GuardOf(folded.block) == Some(GuardParams("my_metric", Some("Test"), "static_function"))
      && ResolveMethod(Some(Named(Literal("other_metric"))), Some(Named(Literal("my_metric"))), "Test", map[])
         == Ok(Emit("other_metric", None))
  {
    var own := Attribute([PathSegment("time", [])], [StrLit("other_metric")]);
    assert IsTimeAttribute(own);
    assert RemoveTimeAttributes([own]) == RemoveTimeAttributes([own][1..]);
  }
}

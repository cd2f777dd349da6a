/** The raw-error taint analysis of the portal language audit
    (expressionProducesRawValue in portal-language-audit.ts): a depth-first search
    over initialisers and assignments, which may be cyclic. */
module RawValues {

  import opened Optional

  type Declaration = nat

  /** An expression without its parentheses and casts. `raw` says that its own
      syntax names a raw error. */
  datatype Expr = Expr(raw: bool, kind: Kind)

  datatype Kind =
    | Identifier(declaration: Option<Declaration>, suspicious: bool)
    | StringCall(argument: Option<Expr>)
    | Conditional(whenTrue: Expr, whenFalse: Expr)
    | RightOnly(left: Expr, right: Expr)
    | Binary(left: Expr, right: Expr)
    | Template(spans: seq<Expr>)
    | Other

  /** What the lexical bindings know of a declaration: whether it is a catch
      binding, and the expressions that give it a value. */
  datatype Binding = Binding(isCatch: bool, initializer: Option<Expr>, assignments: seq<Expr>)

  type Program = map<Declaration, Binding>

  function Lookup(program: Program, declaration: Declaration): Binding {
    if declaration in program then program[declaration] else Binding(false, None, [])
  }

  /** The expressions that give a declaration its value, the initialiser first. */
  function Sources(program: Program, declaration: Declaration): seq<Expr> {
    var binding := Lookup(program, declaration);
    (if binding.initializer.Some? then [binding.initializer.value] else []) + binding.assignments
  }

  // ---- The search -------------------------------------------------------------

  /** The answer of the search below `visiting`, the declarations on the current path. */
  predicate Produces(program: Program, expression: Expr, visiting: set<Declaration>)
    decreases program.Keys - visiting, expression
  {
    expression.raw ||
    match expression.kind
    case Identifier(None, _) => false
    case Identifier(Some(declaration), _) =>
      if declaration in visiting then false
      else if Lookup(program, declaration).isCatch then true
      else if declaration !in program then false
      else
        assert program.Keys - (visiting + {declaration}) < program.Keys - visiting by {
          assert declaration in program.Keys - visiting;
        }
        exists i :: 0 <= i < |Sources(program, declaration)| &&
          Produces(program, Sources(program, declaration)[i], visiting + {declaration})
    case StringCall(argument) =>
      argument.Some? &&
      ((argument.value.kind.Identifier? && argument.value.kind.suspicious) || Produces(program, argument.value, visiting))
    case Conditional(whenTrue, whenFalse) =>
      Produces(program, whenTrue, visiting) || Produces(program, whenFalse, visiting)
    case RightOnly(_, right) => Produces(program, right, visiting)
    case Binary(left, right) => Produces(program, left, visiting) || Produces(program, right, visiting)
    case Template(spans) => exists i :: 0 <= i < |spans| && Produces(program, spans[i], visiting)
    case Other => false
  }

  class NodeSet {
    var nodes: set<Declaration>

    constructor ()
      ensures nodes == {}
    {
      nodes := {};
    }
  }

  /** The search itself. It adds a declaration to `visiting` while it looks behind
      it, and leaves `visiting` as it found it. */
  method ExpressionProducesRawValue(program: Program, expression: Expr, visiting: NodeSet) returns (raw: bool)
    modifies visiting
    ensures visiting.nodes == old(visiting.nodes)
    ensures raw == Produces(program, expression, old(visiting.nodes))
    decreases program.Keys - visiting.nodes, expression, 0
  {
    if expression.raw {
      return true;
    }
    match expression.kind {
      case Identifier(None, _) =>
        raw := false;
      case Identifier(Some(declaration), _) =>
        if declaration in visiting.nodes {
          return false;
        }
        if Lookup(program, declaration).isCatch {
          return true;
        }
        if declaration !in program {
          return false;
        }
        ghost var before := visiting.nodes;
        assert declaration in program.Keys - before;
        visiting.nodes := visiting.nodes + {declaration};
        raw := SomeSourceProducesRawValue(program, Sources(program, declaration), visiting);
        visiting.nodes := visiting.nodes - {declaration};
        assert visiting.nodes == before;
      case StringCall(None) =>
        raw := false;
      case StringCall(Some(argument)) =>
        if argument.kind.Identifier? && argument.kind.suspicious {
          return true;
        }
        raw := ExpressionProducesRawValue(program, argument, visiting);
      case Conditional(whenTrue, whenFalse) =>
        raw := ExpressionProducesRawValue(program, whenTrue, visiting);
        if !raw {
          raw := ExpressionProducesRawValue(program, whenFalse, visiting);
        }
      case RightOnly(_, right) =>
        raw := ExpressionProducesRawValue(program, right, visiting);
      case Binary(left, right) =>
        raw := ExpressionProducesRawValue(program, left, visiting);
        if !raw {
          raw := ExpressionProducesRawValue(program, right, visiting);
        }
      case Template(spans) =>
        raw := false;
        var i := 0;
        while i < |spans| && !raw
          invariant 0 <= i <= |spans| && visiting.nodes == old(visiting.nodes)
          invariant raw <==> exists k :: 0 <= k < i && Produces(program, spans[k], visiting.nodes)
        {
          raw := ExpressionProducesRawValue(program, spans[i], visiting);
          i := i + 1;
        }
      case Other =>
        raw := false;
    }
  }

  method SomeSourceProducesRawValue(program: Program, sources: seq<Expr>, visiting: NodeSet) returns (raw: bool)
    modifies visiting
    ensures visiting.nodes == old(visiting.nodes)
    ensures raw <==> exists i :: 0 <= i < |sources| && Produces(program, sources[i], old(visiting.nodes))
    decreases program.Keys - visiting.nodes, sources, 1
  {
    raw := false;
    var i := 0;
    while i < |sources| && !raw
      invariant 0 <= i <= |sources| && visiting.nodes == old(visiting.nodes)
      invariant raw <==> exists k :: 0 <= k < i && Produces(program, sources[k], visiting.nodes)
    {
      raw := ExpressionProducesRawValue(program, sources[i], visiting);
      i := i + 1;
    }
  }

  /** A name without a binding yields nothing raw, and a catch binding always does. */
  lemma NamesAlone(program: Program, declaration: Declaration, suspicious: bool)
    ensures Produces(program, Expr(false, Identifier(Some(declaration), suspicious)), {}) ==> declaration in program
    ensures declaration in program && program[declaration].isCatch ==>
              Produces(program, Expr(false, Identifier(Some(declaration), suspicious)), {})
  {
  }

  // ---- What it is meant to find -------------------------------------------------

  /** The expression yields a raw value by itself, through its operand positions. */
  predicate Direct(program: Program, expression: Expr) {
    expression.raw ||
    match expression.kind
    case Identifier(declaration, _) => declaration.Some? && Lookup(program, declaration.value).isCatch
    case StringCall(argument) =>
      argument.Some? &&
      ((argument.value.kind.Identifier? && argument.value.kind.suspicious) || Direct(program, argument.value))
    case Conditional(whenTrue, whenFalse) => Direct(program, whenTrue) || Direct(program, whenFalse)
    case RightOnly(_, right) => Direct(program, right)
    case Binary(left, right) => Direct(program, left) || Direct(program, right)
    case Template(spans) => exists i :: 0 <= i < |spans| && Direct(program, spans[i])
    case Other => false
  }

  /** The declaration is named in an operand position of the expression. */
  predicate Mentions(expression: Expr, declaration: Declaration) {
    match expression.kind
    case Identifier(named, _) => named == Some(declaration)
    case StringCall(argument) => argument.Some? && Mentions(argument.value, declaration)
    case Conditional(whenTrue, whenFalse) => Mentions(whenTrue, declaration) || Mentions(whenFalse, declaration)
    case RightOnly(_, right) => Mentions(right, declaration)
    case Binary(left, right) => Mentions(left, declaration) || Mentions(right, declaration)
    case Template(spans) => exists i :: 0 <= i < |spans| && Mentions(spans[i], declaration)
    case Other => false
  }

  /** Value flows into the expression along `path`, a chain of declarations each of
      which is named where the next has its value, from something raw at its end. */
  ghost predicate Flows(program: Program, expression: Expr, path: seq<Declaration>)
    decreases |path|
  {
    if path == [] then Direct(program, expression)
    else
      && Mentions(expression, path[0])
      && exists source :: source in Sources(program, path[0]) && Flows(program, source, path[1..])
  }

  /** The least set of expressions closed under flow: there is a path, of any length
      and through any cycles. */
  ghost predicate Tainted(program: Program, expression: Expr) {
    exists path :: Flows(program, expression, path)
  }

  // ---- Whatever the search reports is there -------------------------------------

  lemma {:induction false} ReportedFlows(program: Program, expression: Expr, visiting: set<Declaration>)
    returns (path: seq<Declaration>)
    requires Produces(program, expression, visiting)
    ensures Flows(program, expression, path)
    decreases program.Keys - visiting, expression
  {
    path := [];
    if expression.raw {
      return;
    }
    match expression.kind
    case Identifier(Some(declaration), _) =>
      if !Lookup(program, declaration).isCatch {
        assert declaration in program.Keys - visiting;
        var i :| 0 <= i < |Sources(program, declaration)| &&
          Produces(program, Sources(program, declaration)[i], visiting + {declaration});
        var rest := ReportedFlows(program, Sources(program, declaration)[i], visiting + {declaration});
        path := [declaration] + rest;
        assert path[1..] == rest && Sources(program, declaration)[i] in Sources(program, path[0]);
      }
    case StringCall(Some(argument)) =>
      if !(argument.kind.Identifier? && argument.kind.suspicious) {
        path := ReportedFlows(program, argument, visiting);
      }
    case Conditional(whenTrue, whenFalse) =>
      if Produces(program, whenTrue, visiting) {
        path := ReportedFlows(program, whenTrue, visiting);
      } else {
        path := ReportedFlows(program, whenFalse, visiting);
      }
    case RightOnly(_, right) =>
      path := ReportedFlows(program, right, visiting);
    case Binary(left, right) =>
      if Produces(program, left, visiting) {
        path := ReportedFlows(program, left, visiting);
      } else {
        path := ReportedFlows(program, right, visiting);
      }
    case Template(spans) =>
      var i :| 0 <= i < |spans| && Produces(program, spans[i], visiting);
      path := ReportedFlows(program, spans[i], visiting);
  }

  // ---- Whatever is there is reported ----------------------------------------------

  ghost predicate NoCatch(program: Program, visiting: set<Declaration>) {
    forall declaration :: declaration in visiting ==> !Lookup(program, declaration).isCatch
  }

  lemma {:induction false} DirectIsReported(program: Program, expression: Expr, visiting: set<Declaration>)
    requires Direct(program, expression) && NoCatch(program, visiting)
    ensures Produces(program, expression, visiting)
    decreases expression
  {
    if expression.raw {
      return;
    }
    match expression.kind
    case Identifier(_, _) =>
    case StringCall(Some(argument)) =>
      if !(argument.kind.Identifier? && argument.kind.suspicious) {
        DirectIsReported(program, argument, visiting);
      }
    case Conditional(whenTrue, whenFalse) =>
      if Direct(program, whenTrue) {
        DirectIsReported(program, whenTrue, visiting);
      } else {
        DirectIsReported(program, whenFalse, visiting);
      }
    case RightOnly(_, right) =>
      DirectIsReported(program, right, visiting);
    case Binary(left, right) =>
      if Direct(program, left) {
        DirectIsReported(program, left, visiting);
      } else {
        DirectIsReported(program, right, visiting);
      }
    case Template(spans) =>
      var i :| 0 <= i < |spans| && Direct(program, spans[i]);
      DirectIsReported(program, spans[i], visiting);
  }

  /** The last position of a declaration on a path. */
  lemma LastVisit(path: seq<Declaration>, declaration: Declaration) returns (last: nat)
    requires declaration in path
    ensures last < |path| && path[last] == declaration && declaration !in path[last + 1..]
  {
    last := |path| - 1;
    while path[last] != declaration
      invariant 0 <= last < |path| && declaration !in path[last + 1..]
      decreases last
    {
      assert path[last..] == [path[last]] + path[last + 1..];
      assert exists k :: 0 <= k < last && path[k] == declaration;
      last := last - 1;
    }
  }

  /** A path can be entered at any of its declarations. */
  lemma {:induction false} EnterAt(program: Program, expression: Expr, path: seq<Declaration>, j: nat)
    returns (source: Expr)
    requires Flows(program, expression, path) && j < |path|
    ensures source in Sources(program, path[j]) && Flows(program, source, path[j + 1..])
    decreases j
  {
    source :| source in Sources(program, path[0]) && Flows(program, source, path[1..]);
    if j > 0 {
      assert path[1..][j..] == path[j + 1..];
      source := EnterAt(program, source, path[1..], j - 1);
    }
  }

  /** Path-local marking loses nothing: a path that comes back to a declaration can
      be cut short there, so the search need not look behind it twice. */
  lemma {:induction false} FlowsIsReported(
    program: Program, expression: Expr, visiting: set<Declaration>, path: seq<Declaration>)
    requires Flows(program, expression, path) && NoCatch(program, visiting)
    requires forall declaration :: declaration in path ==> declaration !in visiting
    ensures Produces(program, expression, visiting)
    decreases |path|, expression
  {
    if path == [] {
      DirectIsReported(program, expression, visiting);
      return;
    }
    if expression.raw {
      return;
    }
    var declaration := path[0];
    match expression.kind
    case Identifier(_, _) =>
      if !Lookup(program, declaration).isCatch {
        var last := LastVisit(path, declaration);
        var source := EnterAt(program, expression, path, last);
        forall later | later in path[last + 1..] ensures later in path && later != declaration {
        }
        FlowsIsReported(program, source, visiting + {declaration}, path[last + 1..]);
        var i :| 0 <= i < |Sources(program, declaration)| && Sources(program, declaration)[i] == source;
        assert Produces(program, Sources(program, declaration)[i], visiting + {declaration});
      }
    case StringCall(Some(argument)) =>
      FlowsIsReported(program, argument, visiting, path);
    case Conditional(whenTrue, whenFalse) =>
      if Mentions(whenTrue, declaration) {
        FlowsIsReported(program, whenTrue, visiting, path);
      } else {
        FlowsIsReported(program, whenFalse, visiting, path);
      }
    case RightOnly(_, right) =>
      FlowsIsReported(program, right, visiting, path);
    case Binary(left, right) =>
      if Mentions(left, declaration) {
        FlowsIsReported(program, left, visiting, path);
      } else {
        FlowsIsReported(program, right, visiting, path);
      }
    case Template(spans) =>
      var i :| 0 <= i < |spans| && Mentions(spans[i], declaration);
      FlowsIsReported(program, spans[i], visiting, path);
  }

  /** On every program, cyclic or not, the search reports exactly the expressions
      that a raw value flows into. */
  lemma SearchIsExact(program: Program, expression: Expr)
    ensures Produces(program, expression, {}) <==> Tainted(program, expression)
  {
    if Produces(program, expression, {}) {
      var path := ReportedFlows(program, expression, {});
    }
    if Tainted(program, expression) {
      var path :| Flows(program, expression, path);
      FlowsIsReported(program, expression, {}, path);
    }
  }

  /** The search started from scratch, as its callers start it. */
  method IsRaw(program: Program, expression: Expr) returns (raw: bool)
    ensures raw <==> Tainted(program, expression)
  {
    var visiting := new NodeSet();
    raw := ExpressionProducesRawValue(program, expression, visiting);
    SearchIsExact(program, expression);
  }
}

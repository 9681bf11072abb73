/** The calculator tool: its declaration, the validation and error wrapping
    of `execute`, the sanitising step of `evaluateExpression` and the
    parenthesis-balance check. The arithmetic itself (code generation over
    IEEE doubles) is a parameter `evaluate` of the model. */
module Calculator {
  import opened Common

  datatype PropertySchema = PropertySchema(typ: string, description: string)

  datatype ParameterSchema =
    ParameterSchema(typ: string, properties: map<string, PropertySchema>, required: seq<string>)

  datatype FunctionDeclaration =
    FunctionDeclaration(name: string, description: string, parameters: ParameterSchema)

  /** What the generated evaluator hands back: a finite number, some other
      value (a non-number, NaN or an infinity) or a thrown error. */
  datatype EvalOutcome = FiniteNumber(x: real) | OtherValue | Throws(message: string)

  /** A plain `Error` raised by `evaluateExpression`, or its value. */
  datatype EvalResult = Value(x: real) | EvalError(message: string)

  /** The success record of `execute` (without the display formatting and the
      timestamp). */
  datatype Calculation = Calculation(expression: string, result: real)

  const FailurePrefix: string := "Calculation failed: "

  /** The single function the tool advertises. */
  function GetDeclaration(): (r: seq<FunctionDeclaration>)
    ensures |r| == 1 && r[0].name == "calculate"
    ensures r[0].parameters.typ == "object" && r[0].parameters.required == ["expression"]
    ensures r[0].parameters.properties.Keys == {"expression"}
    ensures r[0].parameters.properties["expression"].typ == "string"
  {
    [FunctionDeclaration(
      "calculate",
      "Perform mathematical calculations with basic arithmetic operations",
      ParameterSchema(
        "object",
        map["expression" := PropertySchema(
          "string",
          "Mathematical expression to evaluate (e.g., '2 + 3 * 4', 'sqrt(16)', 'sin(30)')")],
        ["expression"]))]
  }

  // The characters that sanitising keeps: digits, the four operators,
  // parentheses, the decimal point and whitespace.
  predicate Allowed(c: char) {
    ('0' <= c <= '9') || c == '+' || c == '-' || c == '*' || c == '/'
    || c == '(' || c == ')' || c == '.' || IsWhitespace(c)
  }

  // Removes every character outside that class, keeping the rest in order.
  function Sanitize(s: string): (r: string)
    ensures |r| <= |s|
    ensures forall i :: 0 <= i < |r| ==> Allowed(r[i])
  {
    if s == [] then []
    else if Allowed(s[0]) then [s[0]] + Sanitize(s[1..])
    else Sanitize(s[1..])
  }

  /** Sanitising works character by character, in order: it distributes over
      concatenation, keeps an allowed character and drops any other. */
  lemma {:induction false} SanitizeConcat(a: string, b: string)
    ensures Sanitize(a + b) == Sanitize(a) + Sanitize(b)
  {
    if a == [] {
      assert a + b == b;
    } else {
      assert (a + b)[0] == a[0];
      assert (a + b)[1..] == a[1..] + b;
      SanitizeConcat(a[1..], b);
      if Allowed(a[0]) {
        calc {
          Sanitize(a + b);
          [a[0]] + Sanitize(a[1..] + b);
          [a[0]] + (Sanitize(a[1..]) + Sanitize(b));
          ([a[0]] + Sanitize(a[1..])) + Sanitize(b);
          Sanitize(a) + Sanitize(b);
        }
      } else {
        assert Sanitize(a + b) == Sanitize(a[1..] + b);
      }
    }
  }

  lemma SanitizeChar(c: char)
    ensures Sanitize([c]) == if Allowed(c) then [c] else []
  {
  }

  /** A character survives sanitising exactly when it is allowed. */
  lemma {:induction false} SanitizeMembers(s: string, c: char)
    ensures c in Sanitize(s) <==> c in s && Allowed(c)
  {
    if s != [] {
      SanitizeMembers(s[1..], c);
      assert s == [s[0]] + s[1..];
    }
  }

  /** Sanitising is idempotent: a sanitised string is left alone. */
  lemma {:induction false} SanitizeIdempotent(s: string)
    ensures Sanitize(Sanitize(s)) == Sanitize(s)
  {
    if s != [] {
      SanitizeIdempotent(s[1..]);
      if Allowed(s[0]) {
        assert ([s[0]] + Sanitize(s[1..]))[1..] == Sanitize(s[1..]);
      }
    }
  }

  /** Occurrences of `c` in `s`. */
  function CountChar(s: string, c: char): nat {
    if s == [] then 0
    else CountChar(s[..|s| - 1], c) + (if s[|s| - 1] == c then 1 else 0)
  }

  /** No prefix closes more parentheses than it has opened, and the totals
      agree (a Dyck word over `(` and `)`, other characters ignored). */
  predicate Balanced(s: string) {
    && (forall i :: 0 <= i <= |s| ==> CountChar(s[..i], ')') <= CountChar(s[..i], '('))
    && CountChar(s, '(') == CountChar(s, ')')
  }

  lemma CountCharStep(s: string, i: nat, c: char)
    requires i < |s|
    ensures CountChar(s[..i + 1], c) == CountChar(s[..i], c) + (if s[i] == c then 1 else 0)
  {
    assert s[..i + 1][..i] == s[..i];
  }

  /** `hasBalancedParentheses`: one pass with a counter, leaving as soon as
      the counter goes negative. */
  method HasBalancedParentheses(expression: string) returns (r: bool)
    ensures r == Balanced(expression)
  {
    var count := 0;
    var i := 0;
    while i < |expression|
      invariant 0 <= i <= |expression|
      invariant count == CountChar(expression[..i], '(') - CountChar(expression[..i], ')')
      invariant forall j :: 0 <= j <= i ==>
        CountChar(expression[..j], ')') <= CountChar(expression[..j], '(')
    {
      var ch := expression[i];
      CountCharStep(expression, i, '(');
      CountCharStep(expression, i, ')');
      if ch == '(' { count := count + 1; }
      if ch == ')' { count := count - 1; }
      if count < 0 {
        assert CountChar(expression[..i + 1], ')') > CountChar(expression[..i + 1], '(');
        return false;
      }
      i := i + 1;
    }
    assert expression[..i] == expression;
    r := count == 0;
  }

  /** `evaluateExpression`, given the already trimmed expression. */
  function EvaluateExpression(expression: string, evaluate: string -> EvalOutcome): (r: EvalResult)
    ensures r.Value? <==>
      Sanitize(expression) != "" && Balanced(Sanitize(expression)) && evaluate(Sanitize(expression)).FiniteNumber?
    ensures r.Value? ==> r.x == evaluate(Sanitize(expression)).x
    ensures Sanitize(expression) == "" ==> r == EvalError("Empty or invalid expression")
  {
    var sanitized := Sanitize(expression);
    if sanitized == "" then EvalError("Empty or invalid expression")
    else if !Balanced(sanitized) then EvalError("Unbalanced parentheses in expression")
    else match evaluate(sanitized)
      case FiniteNumber(x) => Value(x)
      case OtherValue => EvalError("Invalid mathematical expression: Invalid calculation result")
      case Throws(m) => EvalError("Invalid mathematical expression: " + m)
  }

  /** The `TypeError` message V8 gives when `const { expression } = args`
      meets `undefined` or `null`. */
  function DestructureMessage(args: Json): string {
    "Cannot destructure property 'expression' of 'args' as it is " + (if args.JNull? then "null" else "undefined") + "."
  }

  /** `execute(args)`: every failure, whether thrown by the validation, by
      `evaluateExpression` or by the destructuring itself, comes back as an
      EXECUTION_ERROR whose message starts with `Calculation failed: `; a
      success echoes the untrimmed expression. */
  function Execute(args: Json, evaluate: string -> EvalOutcome): (r: Result<Calculation>)
    ensures r.Err? ==> r.error.code == ExecutionError && StartsWith(r.error.message, FailurePrefix)
    ensures r.Ok? ==>
      && args.JObj? && "expression" in args.fields
      && args.fields["expression"] == JStr(r.value.expression)
      && r.value.expression != ""
      && Sanitize(Trim(r.value.expression)) != ""
      && Balanced(Sanitize(Trim(r.value.expression)))
      && evaluate(Sanitize(Trim(r.value.expression))) == FiniteNumber(r.value.result)
    ensures args.JObj? && "expression" in args.fields && args.fields["expression"].JStr? ==>
      var e := args.fields["expression"].s;
      var t := Sanitize(Trim(e));
      e != "" && t != "" && Balanced(t) && evaluate(t).FiniteNumber? ==> r == Ok(Calculation(e, evaluate(t).x))
    ensures args.JUndefined? || args.JNull? ==> r == Err(AppError(FailurePrefix + DestructureMessage(args), ExecutionError))
  {
    if args.JUndefined? || args.JNull? then
      Err(AppError(FailurePrefix + DestructureMessage(args), ExecutionError))
    else
      var expression := if args.JObj? && "expression" in args.fields then args.fields["expression"] else JUndefined;
      if !expression.JStr? || expression.s == "" then
        Err(AppError(FailurePrefix + "Invalid expression provided", ExecutionError))
      else
        match EvaluateExpression(Trim(expression.s), evaluate)
        case Value(x) => Ok(Calculation(expression.s, x))
        case EvalError(m) => Err(AppError(FailurePrefix + m, ExecutionError))
  }

  /** A missing, empty or non-string expression is refused with the same
      message, whatever the evaluator would do. An argument that is not an
      object (a number, a string, an array) has no `expression` at all. */
  lemma InvalidExpressionRejected(args: Json, evaluate: string -> EvalOutcome)
    requires !args.JUndefined? && !args.JNull?
    requires !args.JObj? || "expression" !in args.fields || !args.fields["expression"].JStr?
             || args.fields["expression"].s == ""
    ensures Execute(args, evaluate) == Err(AppError(FailurePrefix + "Invalid expression provided", ExecutionError))
  {
  }

  /** An expression with nothing left after trimming and sanitising, or with
      unbalanced parentheses, is refused before the evaluator is consulted:
      the result does not depend on `evaluate`. */
  lemma RejectedBeforeEvaluation(e: string, f: string -> EvalOutcome, g: string -> EvalOutcome)
    requires e != ""
    requires Sanitize(Trim(e)) == "" || !Balanced(Sanitize(Trim(e)))
    ensures Execute(JObj(map["expression" := JStr(e)]), f) == Execute(JObj(map["expression" := JStr(e)]), g)
    ensures Execute(JObj(map["expression" := JStr(e)]), f).Err?
  {
  }

  /** When the evaluator throws or yields something other than a finite
      number, its message comes back wrapped twice: first by
      `evaluateExpression`, then by `execute`. */
  lemma EvaluatorFailureWrapped(args: Json, evaluate: string -> EvalOutcome)
    requires args.JObj? && "expression" in args.fields && args.fields["expression"].JStr?
    requires var e := args.fields["expression"].s;
      e != "" && Sanitize(Trim(e)) != "" && Balanced(Sanitize(Trim(e)))
    ensures var t := Sanitize(Trim(args.fields["expression"].s));
      evaluate(t).Throws? ==>
        Execute(args, evaluate) ==
        Err(AppError(FailurePrefix + "Invalid mathematical expression: " + evaluate(t).message, ExecutionError))
    ensures var t := Sanitize(Trim(args.fields["expression"].s));
      evaluate(t).OtherValue? ==>
        Execute(args, evaluate) ==
        Err(AppError(FailurePrefix + "Invalid mathematical expression: Invalid calculation result", ExecutionError))
  {
  }

  /** `"2+(3"` is untouched by trimming and sanitising. */
  lemma OpenParenClean()
    ensures Trim("2+(3") == "2+(3" && Sanitize("2+(3") == "2+(3"
  {
    var s := "2+(3";
    assert !IsWhitespace(s[0]) && !IsWhitespace(s[3]);
    assert TrimStart(s) == s;
    assert s[1..] == "+(3" && s[1..][1..] == "(3" && s[1..][1..][1..] == "3";
    assert Sanitize("3") == "3";
    assert Sanitize("(3") == "(3";
    assert Sanitize("+(3") == "+(3";
  }

  /** `"2+(3"` opens one parenthesis more than it closes. */
  lemma {:induction false} OpenParenUnbalanced()
    ensures !Balanced("2+(3")
  {
    var s := "2+(3";
    assert s[..0] == "" && s[..4] == s;
    CountCharStep(s, 0, '('); CountCharStep(s, 1, '('); CountCharStep(s, 2, '('); CountCharStep(s, 3, '(');
    CountCharStep(s, 0, ')'); CountCharStep(s, 1, ')'); CountCharStep(s, 2, ')'); CountCharStep(s, 3, ')');
    assert CountChar(s, '(') == 1 && CountChar(s, ')') == 0;
  }

  /** An expression whose sanitised form is non-empty but unbalanced is
      refused as unbalanced, whatever the evaluator. */
  lemma UnbalancedRejected(e: string, f: string -> EvalOutcome)
    requires e != "" && Sanitize(Trim(e)) != "" && !Balanced(Sanitize(Trim(e)))
    ensures Execute(JObj(map["expression" := JStr(e)]), f)
         == Err(AppError(FailurePrefix + "Unbalanced parentheses in expression", ExecutionError))
  {
  }

  /** Example: `"2+(3"` is refused as unbalanced, whatever the evaluator. */
  lemma UnbalancedExample(f: string -> EvalOutcome)
    ensures Execute(JObj(map["expression" := JStr("2+(3")]), f)
         == Err(AppError(FailurePrefix + "Unbalanced parentheses in expression", ExecutionError))
  {
    OpenParenClean();
    OpenParenUnbalanced();
    UnbalancedRejected("2+(3", f);
  }
}

/** Parameter validation: a guard that checks one argument of a method
    against a list of predicates before the method runs, and the predicate
    lists built into the ready-made guards (IsNumber, IsString, IsLessThan,
    IsGreaterThan, EqualsOneOf, EqualsNoneOf).

    JavaScript values are modelled by a small dynamic value type; numbers are
    exact reals (there is no NaN, no infinity and no -0 in this model). */
module ParameterValidation {

  /** A dynamically typed argument value. */
  datatype Value = Num(n: real) | Str(s: string) | Bool(b: bool) | Undefined | Null

  /** One validation predicate. */
  type Check = Value -> bool

  /** The error thrown by a guarded method: it names the 1-based parameter
      position and the value that failed. */
  datatype ValidationError = ValidationError(position: nat, provided: Value)

  /** What a call to a guarded method does: it returns the original method's
      result, or it throws before the original method is reached. */
  datatype Outcome<R> = Returned(value: R) | Threw(error: ValidationError)

  /** `checks.every(fn => fn(x))`: evaluates the checks left to right and
      stops at the first one that rejects; true on an empty list. */
  function Every(checks: seq<Check>, x: Value): (ok: bool)
    ensures ok <==> forall i :: 0 <= i < |checks| ==> checks[i](x)
  {
    if checks == [] then true
    else if !checks[0](x) then false
    else
      var rest := Every(checks[1..], x);
      assert forall i :: 1 <= i < |checks| ==> checks[i] == checks[1..][i - 1];
      rest
  }

  /** `args[parameterIndex]`: reading past the end of the arguments yields
      `undefined`. */
  function ArgAt(args: seq<Value>, parameterIndex: nat): (v: Value)
    ensures parameterIndex < |args| ==> v == args[parameterIndex]
    ensures parameterIndex >= |args| ==> v == Undefined
  {
    if parameterIndex < |args| then args[parameterIndex] else Undefined
  }

  /** The method that a `Validate(...checks)` decorator installs on parameter
      `parameterIndex` of `original`, applied to `args`. */
  function Guarded<R>(checks: seq<Check>, parameterIndex: nat, original: seq<Value> -> R,
                      args: seq<Value>): (o: Outcome<R>)
    ensures o.Returned? <==> forall i :: 0 <= i < |checks| ==> checks[i](ArgAt(args, parameterIndex))
    ensures o.Returned? ==> o.value == original(args)
    ensures o.Threw? ==> o.error == ValidationError(parameterIndex + 1, ArgAt(args, parameterIndex))
  {
    var parameterValue := ArgAt(args, parameterIndex);
    if !Every(checks, parameterValue) then Threw(ValidationError(parameterIndex + 1, parameterValue))
    else Returned(original(args))
  }

  /** When a check rejects the argument, the original method is never
      consulted: any two originals give the same thrown error. */
  lemma RejectedCallNeverReachesOriginal<R>(checks: seq<Check>, parameterIndex: nat,
                                             f: seq<Value> -> R, g: seq<Value> -> R, args: seq<Value>, i: nat)
    requires i < |checks| && !checks[i](ArgAt(args, parameterIndex))
    ensures Guarded(checks, parameterIndex, f, args).Threw?
    ensures Guarded(checks, parameterIndex, f, args) == Guarded(checks, parameterIndex, g, args)
  {
  }

  /** With no checks every call passes straight through to the original. */
  lemma EmptyGuardPassesThrough<R>(parameterIndex: nat, original: seq<Value> -> R, args: seq<Value>)
    ensures Guarded([], parameterIndex, original, args) == Returned(original(args))
  {
  }

  // ---------------------------------------------------------------------
  // The predicates behind the ready-made guards

  /** `typeof x === 'number'` */
  function IsNumberCheck(x: Value): bool { x.Num? }

  /** `typeof x === 'string'` */
  function IsStringCheck(x: Value): bool { x.Str? }

  /** `x => x < n`; it is only ever reached after IsNumberCheck accepted
      (`every` stops at the first rejection), so its value on non-numbers
      is irrelevant and taken to be false. */
  function LessThanCheck(n: real, x: Value): bool { x.Num? && x.n < n }

  /** `x => x > n`, reached only after IsNumberCheck accepted. */
  function GreaterThanCheck(n: real, x: Value): bool { x.Num? && x.n > n }

  /** `vals.includes(x)`: a left-to-right search using SameValueZero, which
      on this value type is plain equality. */
  function Includes(vals: seq<Value>, x: Value): (found: bool)
    ensures found <==> x in vals
  {
    if vals == [] then false
    else if vals[0] == x then true
    else
      var rest := Includes(vals[1..], x);
      assert x in vals <==> x == vals[0] || x in vals[1..];
      rest
  }

  /** `vals.every(val => val !== x)`: strict inequality against every value. */
  function DiffersFromAll(vals: seq<Value>, x: Value): (distinct: bool)
    ensures distinct <==> forall i :: 0 <= i < |vals| ==> vals[i] != x
  {
    if vals == [] then true
    else if vals[0] == x then false
    else
      var rest := DiffersFromAll(vals[1..], x);
      assert forall i :: 1 <= i < |vals| ==> vals[i] == vals[1..][i - 1];
      rest
  }

  /** The check list of the `IsNumber` guard. */
  function IsNumber(): (checks: seq<Check>)
    ensures forall x :: Every(checks, x) <==> x.Num?
  {
    [IsNumberCheck]
  }

  /** The check list of the `IsString` guard. */
  function IsString(): (checks: seq<Check>)
    ensures forall x :: Every(checks, x) <==> x.Str?
  {
    [IsStringCheck]
  }

  /** The check list of `IsLessThan(n)`: a number, and below n. */
  function IsLessThan(n: real): (checks: seq<Check>)
    ensures forall x :: Every(checks, x) <==> (x.Num? && x.n < n)
  {
    [IsNumberCheck, x => LessThanCheck(n, x)]
  }

  /** The check list of `IsGreaterThan(n)`: a number, and above n. */
  function IsGreaterThan(n: real): (checks: seq<Check>)
    ensures forall x :: Every(checks, x) <==> (x.Num? && x.n > n)
  {
    [IsNumberCheck, x => GreaterThanCheck(n, x)]
  }

  /** The check list of `EqualsOneOf(...vals)`. */
  function EqualsOneOf(vals: seq<Value>): (checks: seq<Check>)
    ensures forall x :: Every(checks, x) <==> x in vals
  {
    [x => Includes(vals, x)]
  }

  /** The check list of `EqualsNoneOf(...vals)`. */
  function EqualsNoneOf(vals: seq<Value>): (checks: seq<Check>)
    ensures forall x :: Every(checks, x) <==> x !in vals
  {
    [x => DiffersFromAll(vals, x)]
  }

  /** No value is accepted by both IsLessThan(n) and IsGreaterThan(n). */
  lemma LessAndGreaterDisjoint(n: real, x: Value)
    ensures !(Every(IsLessThan(n), x) && Every(IsGreaterThan(n), x))
  {
  }

  /** EqualsOneOf(vals) and EqualsNoneOf(vals) accept complementary sets. */
  lemma OneOfAndNoneOfComplementary(vals: seq<Value>, x: Value)
    ensures Every(EqualsOneOf(vals), x) <==> !Every(EqualsNoneOf(vals), x)
  {
  }

  /** IsNumber and IsString accept disjoint sets of values. */
  lemma NumberAndStringDisjoint(x: Value)
    ensures !(Every(IsNumber(), x) && Every(IsString(), x))
  {
  }

  /** A guarded call to a method decorated with `IsLessThan(n)` throws exactly
      when the argument is not a number below n, and otherwise returns the
      original's result. */
  lemma GuardedLessThan<R>(n: real, parameterIndex: nat, original: seq<Value> -> R, args: seq<Value>)
    ensures var v := ArgAt(args, parameterIndex);
            Guarded(IsLessThan(n), parameterIndex, original, args) ==
              if v.Num? && v.n < n then Returned(original(args))
              else Threw(ValidationError(parameterIndex + 1, v))
  {
    var checks := IsLessThan(n);
    var v := ArgAt(args, parameterIndex);
    assert Every(checks, v) <==> v.Num? && v.n < n;
  }
}

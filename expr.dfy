/**
 * The expression facility, seen from outside: an environment of named values
 * goes in, a result comes out. Compiling and running expressions is not
 * modelled; a filter's compiled condition is an opaque function.
 */
module Expr {

  /** The values the core puts into an environment. */
  datatype Value =
    | Text(s: string)
    | Number(n: int)
    | Texts(items: seq<string>)
    | Record(fields: map<string, Value>)

  type Env = map<string, Value>

  /**
   * What running a condition gives back: a boolean, a string, any other value
   * (a number, a list, a map), or a run-time error, for which the library
   * returns a nil result.
   */
  datatype EvalResult = Bool(b: bool) | Str(s: string) | Other | EvalError

  type Condition = Env -> EvalResult

  /**
   * The match test `fmt.Sprintf("%v", result) == "true"`. A boolean prints as
   * `true` or `false`, a string prints as itself, a nil result as `<nil>`,
   * numbers, lists and maps never as `true`.
   */
  predicate IsMatch(r: EvalResult) {
    match r
    case Bool(b) => b
    case Str(s) => s == "true"
    case Other => false
    case EvalError => false
  }

  /** The two results that match: boolean true and the string "true". */
  lemma MatchingResults(r: EvalResult)
    ensures IsMatch(r) <==> r == Bool(true) || r == Str("true")
  {
  }
}

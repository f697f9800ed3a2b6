/**
 * The logging helpers of src/Log.h: the method-name extraction used in every
 * log line, and the control flow of the logging macros. Because STRICT_MODE
 * is true, an error log throws just like a fatal one; every other module
 * models a thrown std::runtime_error as `Raised`.
 */
module Log {

  /** Result of an operation that may throw std::runtime_error from `_FATAL` or `_ERROR`. */
  datatype Outcome<T> = Ok(value: T) | Raised(msg: string)

  // ---------------------------------------------------------------------------
  // Macro semantics
  // ---------------------------------------------------------------------------

  const STRICT_MODE: bool := true

  datatype Level = Debug | Info | Warn | Error | Fatal

  /** Whether a log statement of this level throws after printing. */
  predicate Throws(level: Level)
  {
    match level
    case Fatal => true
    case Error => STRICT_MODE
    case _ => false
  }

  /** What a statement does to the enclosing function: falls through, returns a code, or throws. */
  datatype Flow<R> = FallThrough | Return(code: R) | Throw

  /** The `if (cond) { LOG(...); return (retcode); }` shape of `_ERROR_RETURN_IF` and `_WARN_RETURN_IF`. */
  function LogReturnIf<R>(level: Level, cond: bool, retcode: R): (f: Flow<R>)
    ensures !cond <==> f == FallThrough
    ensures f.Throw? <==> cond && Throws(level)
    ensures f.Return? ==> f.code == retcode
  {
    if !cond then FallThrough
    else if Throws(level) then Throw
    else Return(retcode)
  }

  /** The `if (cond) { LOG(...); }` shape of `_FATAL_IF`, `_ERROR_IF` and `_WARN_IF`. */
  function LogIf<R>(level: Level, cond: bool): (f: Flow<R>)
    ensures !f.Return?
    ensures f.Throw? <==> cond && Throws(level)
  {
    if cond && Throws(level) then Throw else FallThrough
  }

  function ErrorReturnIf<R>(cond: bool, retcode: R): Flow<R> { LogReturnIf(Error, cond, retcode) }

  function WarnReturnIf<R>(cond: bool, retcode: R): Flow<R> { LogReturnIf(Warn, cond, retcode) }

  /** `_ERROR_RETURN_IF` never reaches its `return`: under STRICT_MODE it throws whenever its condition holds. */
  lemma ErrorReturnIfNeverReturns<R>(cond: bool, retcode: R)
    ensures !ErrorReturnIf(cond, retcode).Return?
    ensures ErrorReturnIf(cond, retcode) == (if cond then Throw else FallThrough)
  {
  }

  /** `_WARN_RETURN_IF` never throws; it returns its code exactly when the condition holds. */
  lemma WarnReturnIfNeverThrows<R>(cond: bool, retcode: R)
    ensures WarnReturnIf(cond, retcode) == (if cond then Return(retcode) else FallThrough)
  {
  }

  /** `_FATAL` throws whatever the mode; `_ERROR` throws because STRICT_MODE is set; `_WARN` and below never throw. */
  lemma ThrowingLevels(level: Level)
    ensures Throws(level) <==> level == Error || level == Fatal
  {
  }

  // ---------------------------------------------------------------------------
  // __prettyMethodName
  // ---------------------------------------------------------------------------

  /** size_t arithmetic wraps modulo 2^64. */
  const SIZE_T_MOD: int := 0x1_0000_0000_0000_0000

  /** std::string::npos, the largest size_t. */
  const NPOS: int := SIZE_T_MOD - 1

  /** Conversion to size_t of a value at most one period away from its range: it wraps at most once. */
  function ToSizeT(x: int): (r: int)
    requires -SIZE_T_MOD < x < 2 * SIZE_T_MOD
    ensures 0 <= r < SIZE_T_MOD
    ensures r == x || r == x + SIZE_T_MOD || r == x - SIZE_T_MOD
  {
    if x < 0 then x + SIZE_T_MOD else if x >= SIZE_T_MOD then x - SIZE_T_MOD else x
  }

  /** std::string::find for one character: the first index holding `c`, or npos. */
  function Find(s: string, c: char): (r: int)
    ensures r == NPOS || 0 <= r < |s|
    ensures r == NPOS ==> c !in s
    ensures r != NPOS ==> s[r] == c && c !in s[..r]
    requires |s| < NPOS
  {
    if |s| == 0 then NPOS
    else if s[0] == c then 0
    else
      var k := Find(s[1..], c);
      assert s[1..] == s[1..][..|s| - 1];
      if k == NPOS then NPOS
      else
        assert s[..k + 1] == [s[0]] + s[1..][..k];
        k + 1
  }

  /** std::string::substr(pos, count): clamps the count to what is left after `pos`. */
  function Substr(s: string, pos: nat, count: nat): (r: string)
    requires pos <= |s|
    ensures |r| <= |s| - pos
  {
    if count <= |s| - pos then s[pos..pos + count] else s[pos..]
  }

  /**
   * __prettyMethodName: `begin` is one past the first space (npos + 1 wraps to 0),
   * `end` is the index of the first '(' minus `begin` in size_t arithmetic.
   */
  function PrettyMethodName(prettyFunction: string): string
    requires |prettyFunction| < NPOS
  {
    PrettyBetween(prettyFunction, Find(prettyFunction, ' '), Find(prettyFunction, '('))
  }

  /** The substr of __prettyMethodName, given the results `sp` and `paren` of its two finds. */
  function PrettyBetween(s: string, sp: int, paren: int): string
    requires |s| < NPOS
    requires sp == NPOS || 0 <= sp < |s|
    requires paren == NPOS || 0 <= paren < |s|
  {
    var begin := ToSizeT(sp + 1);
    var end := ToSizeT(paren - begin);
    Substr(s, begin, end) + "()"
  }

  /**
   * The cases of __prettyMethodName: it always ends in "()"; what precedes it is
   * the text after the first space (or from index 0 when there is none, since
   * npos + 1 wraps to 0) up to the first '(' when that '(' comes at or after the
   * start, and the whole rest of the string otherwise, because the length
   * underflows.
   */
  lemma PrettyMethodNameCases(s: string)
    requires |s| < NPOS
    ensures var r := PrettyMethodName(s);
            var sp := Find(s, ' ');
            var start := if sp == NPOS then 0 else sp + 1;
            var paren := Find(s, '(');
            && start <= |s|
            && |r| >= 2 && r[|r| - 2..] == "()"
            && (paren != NPOS && start <= paren ==> r == s[start..paren] + "()")
            && (paren == NPOS || paren < start ==> r == s[start..] + "()")
  {
    PrettyBetweenCases(s, Find(s, ' '), Find(s, '('));
  }

  /** The cases of the substr, whatever positions the finds returned. */
  lemma PrettyBetweenCases(s: string, sp: int, paren: int)
    requires |s| < NPOS
    requires sp == NPOS || 0 <= sp < |s|
    requires paren == NPOS || 0 <= paren < |s|
    ensures var r := PrettyBetween(s, sp, paren);
            var start := if sp == NPOS then 0 else sp + 1;
            && start <= |s|
            && |r| >= 2 && r[|r| - 2..] == "()"
            && (paren != NPOS && start <= paren ==> r == s[start..paren] + "()")
            && (paren == NPOS || paren < start ==> r == s[start..] + "()")
  {
    var start := if sp == NPOS then 0 else sp + 1;
    var body := if paren != NPOS && start <= paren then s[start..paren] else s[start..];
    PrettyBetweenBody(s, sp, paren, start, body);
    assert (body + "()")[|body|..] == "()";
  }

  /** The substr takes `body`: up to the '(' when it follows the start, else the rest. */
  lemma PrettyBetweenBody(s: string, sp: int, paren: int, start: nat, body: string)
    requires |s| < NPOS
    requires sp == NPOS || 0 <= sp < |s|
    requires paren == NPOS || 0 <= paren < |s|
    requires start == if sp == NPOS then 0 else sp + 1
    requires body == if paren != NPOS && start <= paren then s[start..paren] else s[start..]
    ensures PrettyBetween(s, sp, paren) == body + "()"
  {
    assert ToSizeT(sp + 1) == start;
    var end := ToSizeT(paren - start);
    if paren != NPOS && start <= paren {
      assert end == paren - start;
    } else {
      assert end >= |s| - start;
    }
    assert Substr(s, start, end) == body;
  }

  /** Example of the usual case: "void A::f(int)" yields "A::f()". */
  lemma PrettyMethodNameExample(s: string)
    requires s == "void A::f(int)"
    ensures PrettyMethodName(s) == "A::f()"
  {
    ExampleSpace(s);
    ExampleParen(s);
    PrettyMethodNameCases(s);
    assert ' ' in s by { assert s[4] == ' '; }
    assert PrettyMethodName(s) == s[5..9] + "()";
    assert s[5..9] == "A::f";
  }

  lemma ExampleSpace(s: string)
    requires s == "void A::f(int)"
    ensures Find(s, ' ') == 4
  {
    assert s[4] == ' ';
  }

  lemma ExampleParen(s: string)
    requires s == "void A::f(int)"
    ensures Find(s, '(') == 9
  {
    assert s[9] == '(';
  }
}

/**
 * The log levels, their order and their display names (src/index.ts:1-24).
 */
module Levels {

  /** The five levels, in increasing priority. `Off` is a threshold only: nothing is logged at it. */
  datatype LogLevel = Debug | Info | Warn | Error | Off

  /** The levels a message may be logged at: every level except `Off`. */
  type MessageLevel = l: LogLevel | l != Off witness Debug

  /** The numeric value the enumeration assigns to a level. */
  function Rank(l: LogLevel): (n: nat)
    ensures n <= 4
  {
    match l
    case Debug => 0
    case Info => 1
    case Warn => 2
    case Error => 3
    case Off => 4
  }

  /** `a` is at most as severe as `b`: the numeric `<=` of the enumeration. */
  predicate Le(a: LogLevel, b: LogLevel)
    ensures a == b ==> Le(a, b)
    ensures a == Debug || b == Off ==> Le(a, b)
    ensures Le(a, b) && b == Debug ==> a == Debug
    ensures Le(a, b) && a == Off ==> b == Off
  {
    Rank(a) <= Rank(b)
  }

  /**
   * `Le` is a total order on the five levels, with `Debug` at the bottom and `Off` at the top,
   * and the levels ascend strictly in the order they are declared.
   */
  lemma LeIsTotalOrder(a: LogLevel, b: LogLevel, c: LogLevel)
    ensures Le(a, a)
    ensures Le(a, b) || Le(b, a)
    ensures Le(a, b) && Le(b, a) ==> a == b
    ensures Le(a, b) && Le(b, c) ==> Le(a, c)
    ensures Le(Debug, a) && Le(a, Off)
    ensures Le(Debug, Info) && Le(Info, Warn) && Le(Warn, Error) && Le(Error, Off)
    ensures !Le(Info, Debug) && !Le(Warn, Info) && !Le(Error, Warn) && !Le(Off, Error)
  {
  }

  /** `Math.min` on two levels: the more verbose one. */
  function Min(a: LogLevel, b: LogLevel): (m: LogLevel)
    ensures Le(m, a) && Le(m, b)
    ensures m == a || m == b
  {
    if Rank(a) <= Rank(b) then a else b
  }

  lemma MinCommutes(a: LogLevel, b: LogLevel)
    ensures Min(a, b) == Min(b, a)
  {
  }

  /** The display name of each level, as the `logLevelDisplay` table gives it. */
  function Display(l: LogLevel): (s: string)
    ensures s == "Debug" <==> l == Debug
    ensures s == "Info" <==> l == Info
    ensures s == "Warn" <==> l == Warn
    ensures s == "Error" <==> l == Error
    ensures s == "Off" <==> l == Off
  {
    match l
    case Debug => "Debug"
    case Info => "Info"
    case Warn => "Warn"
    case Error => "Error"
    case Off => "Off"
  }

  /** The display table is one-to-one: no two levels share a name. */
  lemma DisplayInjective(a: LogLevel, b: LogLevel)
    ensures Display(a) == Display(b) ==> a == b
  {
  }
}

/**
 * The five logging levels, their priority ranks and the four comparisons
 * between levels.
 */
module LogLevels {

  /**
   * A logging level. In the original these are the string literals
   * "debug", "trace", "info", "warn" and "error"; `Tag` gives that string.
   */
  datatype LogLevel = Debug | Trace | Info | Warn | Error

  /** The levels in ascending order of priority, as the level documentation lists them. */
  const Ascending: seq<LogLevel> := [Debug, Trace, Info, Warn, Error]

  /** The string a level is written as. */
  function Tag(level: LogLevel): string {
    match level
    case Debug => "debug"
    case Trace => "trace"
    case Info => "info"
    case Warn => "warn"
    case Error => "error"
  }

  /** Distinct levels are written as distinct strings. */
  lemma TagInjective(a: LogLevel, b: LogLevel)
    ensures Tag(a) == Tag(b) ==> a == b
  {
  }

  /**
   * The priority rank of a level: its position in the ascending order, so
   * debug, trace, info, warn and error get 0, 1, 2, 3 and 4.
   */
  function LevelToInt(level: LogLevel): (r: nat)
    ensures r < |Ascending| && Ascending[r] == level
  {
    if level == Debug then 0
    else if level == Trace then 1
    else if level == Info then 2
    else if level == Warn then 3
    else assert level.Error?; 4
  }

  /** Different levels have different ranks. */
  lemma RankInjective(a: LogLevel, b: LogLevel)
    ensures LevelToInt(a) == LevelToInt(b) <==> a == b
  {
  }

  /** The rank of the level at position `i` of the ascending order is `i`. */
  lemma RankOfAscending(i: nat)
    requires i < |Ascending|
    ensures LevelToInt(Ascending[i]) == i
  {
  }

  /** Whether `fst` is of strictly lower priority than `snd`. */
  predicate LogLt(fst: LogLevel, snd: LogLevel) {
    LevelToInt(fst) < LevelToInt(snd)
  }

  /** Whether `fst` is of lower or equal priority as `snd`. */
  predicate LogLte(fst: LogLevel, snd: LogLevel) {
    LevelToInt(fst) <= LevelToInt(snd)
  }

  /** Whether `fst` is of strictly greater priority than `snd`. */
  predicate LogGt(fst: LogLevel, snd: LogLevel) {
    LevelToInt(fst) > LevelToInt(snd)
  }

  /** Whether `fst` is of greater or equal priority as `snd`. */
  predicate LogGte(fst: LogLevel, snd: LogLevel) {
    LevelToInt(fst) >= LevelToInt(snd)
  }

  /** The comparisons follow the positions of the levels in the ascending order. */
  lemma ComparisonsFollowAscending(i: nat, j: nat)
    requires i < |Ascending| && j < |Ascending|
    ensures LogLt(Ascending[i], Ascending[j]) <==> i < j
    ensures LogLte(Ascending[i], Ascending[j]) <==> i <= j
    ensures LogGt(Ascending[i], Ascending[j]) <==> i > j
    ensures LogGte(Ascending[i], Ascending[j]) <==> i >= j
  {
    RankOfAscending(i);
    RankOfAscending(j);
  }

  /** The four comparisons agree with one another: duality, complement and strictness. */
  lemma ComparisonsAgree(a: LogLevel, b: LogLevel)
    ensures LogGt(a, b) == LogLt(b, a)
    ensures LogGte(a, b) == LogLte(b, a)
    ensures LogGte(a, b) == !LogLt(a, b)
    ensures LogGt(a, b) == !LogLte(a, b)
    ensures LogLte(a, b) == (LogLt(a, b) || a == b)
  {
  }

  /** Exactly one of `a < b`, `a == b`, `b < a` holds. */
  lemma Trichotomy(a: LogLevel, b: LogLevel)
    ensures LogLt(a, b) || a == b || LogLt(b, a)
    ensures !(LogLt(a, b) && a == b)
    ensures !(LogLt(a, b) && LogLt(b, a))
    ensures !(a == b && LogLt(b, a))
  {
  }

  /** `LogLte` is a total order on the levels: reflexive, antisymmetric, transitive and total. */
  lemma LogLteIsTotalOrder()
    ensures forall x :: LogLte(x, x)
    ensures forall x, y :: LogLte(x, y) && LogLte(y, x) ==> x == y
    ensures forall x, y, z :: LogLte(x, y) && LogLte(y, z) ==> LogLte(x, z)
    ensures forall x, y :: LogLte(x, y) || LogLte(y, x)
  {
  }

  /** `LogLt` is a strict total order on the levels: irreflexive, asymmetric, transitive and connected. */
  lemma LogLtIsStrictTotalOrder()
    ensures forall x :: !LogLt(x, x)
    ensures forall x, y :: LogLt(x, y) ==> !LogLt(y, x)
    ensures forall x, y, z :: LogLt(x, y) && LogLt(y, z) ==> LogLt(x, z)
    ensures forall x, y :: x != y ==> LogLt(x, y) || LogLt(y, x)
  {
  }

  /** `debug` is the lowest priority and `error` the highest. */
  lemma Extremes(l: LogLevel)
    ensures LogLte(Debug, l) && LogLte(l, Error)
  {
  }
}

/**
 * The standard logging levels the source logs at, with the level numbers
 * of Python's `logging` module.
 */
module LogLevels {

  datatype Level = Debug | Info | Warning | Error | Critical

  /** `logging.DEBUG` … `logging.CRITICAL`. */
  function LevelNo(l: Level): (n: int)
    ensures 10 <= n <= 50 && n % 10 == 0
  {
    match l
    case Debug => 10
    case Info => 20
    case Warning => 30
    case Error => 40
    case Critical => 50
  }
}

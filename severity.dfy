/** The severity model of the file logger: the `LogLevel` enumeration, its
    display names, and the comparison `LogMessage` uses to decide whether a
    message is written.

    `LogLevel` is a signed 16-bit integer, so any value in that range is a
    level, not only the six named constants. */
module Severity {

  newtype LogLevel = x: int | -0x8000 <= x < 0x8000

  const Undefined: LogLevel := 0
  const Fatal: LogLevel := 1
  const Error: LogLevel := 2
  const Warn: LogLevel := 3
  const Info: LogLevel := 4
  const Debug: LogLevel := 5

  /** One of the six named constants. */
  predicate IsNamed(l: LogLevel) {
    Undefined <= l <= Debug
  }

  /** The named constants, in declaration order. */
  const Levels: seq<LogLevel> := [Undefined, Fatal, Error, Warn, Info, Debug]

  /** `String()` of a level: the five defined levels have their own name, and
      every other value of the type, 0 included, is shown as "Undefined". */
  function Name(l: LogLevel): (name: string)
    ensures name == "Undefined" <==> !(Fatal <= l <= Debug)
    ensures |name| >= 4
  {
    if l == Fatal then "Fatal"
    else if l == Error then "Error"
    else if l == Warn then "Warn"
    else if l == Info then "Info"
    else if l == Debug then "Debug"
    else "Undefined"
  }

  /** The constants are numbered 0 to 5 in declaration order, so the order of
      the type is the order in which they are declared. */
  lemma LevelOrdinals()
    ensures forall i :: 0 <= i < |Levels| ==> Levels[i] as int == i
    ensures forall i, j :: 0 <= i < j < |Levels| ==> Levels[i] < Levels[j]
    ensures forall l :: IsNamed(l) <==> l in Levels
  {
  }

  /** The names of the defined levels, and the name of everything else. */
  lemma LevelNames(l: LogLevel)
    ensures Name(Fatal) == "Fatal" && Name(Error) == "Error" && Name(Warn) == "Warn"
    ensures Name(Info) == "Info" && Name(Debug) == "Debug"
    ensures (l <= Undefined || l > Debug) ==> Name(l) == "Undefined"
  {
  }

  /** A name is shared only by the values shown as "Undefined": the five
      defined levels each have a name no other value has. */
  lemma NameIdentifiesLevel(a: LogLevel, b: LogLevel)
    requires Fatal <= a <= Debug
    ensures Name(a) == Name(b) <==> a == b
  {
  }

  /** The test `LogMessage` applies: a message is written iff its severity is
      at least the configured level, compared as integers. Between named
      levels, that is: the message's level is declared no earlier than the
      configured one. */
  predicate Passes(current: LogLevel, severity: LogLevel)
    ensures IsNamed(current) && IsNamed(severity) ==>
              (Passes(current, severity) <==> severity in Levels[current as int..])
  {
    severity >= current
  }

  /** Because Fatal's ordinal is below Error's, a logger configured at Error
      drops Fatal messages. */
  lemma ErrorDropsFatal()
    ensures !Passes(Error, Fatal)
    ensures forall s :: IsNamed(s) ==> (Passes(Error, s) <==> Error <= s)
  {
  }

  /** A logger configured at Debug keeps only Debug among the named levels. */
  lemma DebugPassesOnlyDebug()
    ensures forall s :: IsNamed(s) ==> (Passes(Debug, s) <==> s == Debug)
  {
  }

  /** Undefined is the only named configuration that lets every named level
      through. */
  lemma OnlyUndefinedPassesAll(current: LogLevel)
    requires IsNamed(current)
    ensures (forall s :: IsNamed(s) ==> Passes(current, s)) <==> current == Undefined
  {
    if current != Undefined {
      assert !Passes(current, Undefined);
    }
  }

  /** The filter is monotone in both arguments: raising a message's ordinal
      never drops it, lowering the configured level never drops more. */
  lemma PassesMonotone(current: LogLevel, lower: LogLevel, severity: LogLevel, higher: LogLevel)
    requires Passes(current, severity)
    requires lower <= current && severity <= higher
    ensures Passes(current, higher) && Passes(lower, severity)
  {
  }
}

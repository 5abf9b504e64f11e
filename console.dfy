/**
  The console as a value: each call to `print` becomes one `Line`. The
  `colors.warning`, `colors.error` and `colors.options` wrappers are kept as
  opaque tags around the text they decorate.
 */
module Console {

  datatype Line =
    | Plain(text: string)
    | Warning(inner: Line)
    | Error(inner: Line)
    | Options(inner: Line)

  /** The words of a line with every colour tag removed. */
  function Text(line: Line): string {
    match line
    case Plain(s) => s
    case Warning(l) => Text(l)
    case Error(l) => Text(l)
    case Options(l) => Text(l)
  }

  /** `print(colors.warning(s))` */
  function WarningLine(s: string): Line {
    Warning(Plain(s))
  }

  /** `print(colors.error(s))` */
  function ErrorLine(s: string): Line {
    Error(Plain(s))
  }
}

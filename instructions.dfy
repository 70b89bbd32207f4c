/** The drawing instructions a conditional symbology procedure emits. Each
  * constructor is one command word of the presentation library's
  * instruction string; `Render` gives its text. */
module Instructions {
  import opened Basics

  datatype LineStyle = SOLD | DASH | DOTT

  /** A piece of a light's description text (`_LITDSN01`). Two pieces come
    * from printf-style number formatting and are kept symbolic. */
  datatype TextPart =
    | Lit(text: string)
      /** "%.1fm " of the HEIGHT value minus the datum offset */
    | HeightAdjusted(height: string, offset: real)
      /** "%3.1f" of the VALNMR value, cut to two characters */
    | RangeReformatted(valnmr: string)

  datatype Instr =
    | OP(priority: string)                          // ;OP(...)
    | AC(colour: string)                            // ;AC(colour)
    | AP(pattern: string)                           // ;AP(pattern)
    | LS(style: LineStyle, width: nat, colour: string) // ;LS(style,width,colour)
    | LC(name: string)                              // ;LC(name)
    | SY(name: string)                              // ;SY(name)
    | SYRot(name: string, rotation: string)         // ;SY(name,rotation)
    | TX(text: seq<TextPart>, params: string)       // ;TX('text',params)
    | TE(format: string, attribute: string, params: string) // ;TE('format','attribute',params)

  function StyleText(st: LineStyle): string {
    match st
    case SOLD => "SOLD"
    case DASH => "DASH"
    case DOTT => "DOTT"
  }

  function PartText(t: TextPart): string {
    match t
    case Lit(text) => text
    case HeightAdjusted(height, _) => "<" + height + ">m "
    case RangeReformatted(valnmr) => "<" + valnmr + ">"
  }

  function TextOf(ts: seq<TextPart>): string
    decreases |ts|
  {
    if ts == [] then "" else PartText(ts[0]) + TextOf(ts[1..])
  }

  /** The two-letter command an instruction starts with. */
  function Command(i: Instr): (r: string)
    ensures |r| == 2
  {
    match i
    case OP(_) => "OP" case AC(_) => "AC" case AP(_) => "AP"
    case LS(_, _, _) => "LS" case LC(_) => "LC" case SY(_) => "SY" case SYRot(_, _) => "SY"
    case TX(_, _) => "TX" case TE(_, _, _) => "TE"
  }

  /** The text between an instruction's parentheses (formatted numbers
    * inside a TX text are shown as their source text in angle brackets). */
  function Arguments(i: Instr): string {
    match i
    case OP(p) => p
    case AC(c) => c
    case AP(p) => p
    case LS(st, w, c) => StyleText(st) + "," + Decimal(w) + "," + c
    case LC(n) => n
    case SY(n) => n
    case SYRot(n, r) => n + "," + r
    case TX(t, p) => "'" + TextOf(t) + "'," + p
    case TE(f, a, p) => "'" + f + "','" + a + "'," + p
  }

  /** The instruction-string text of one instruction: a command word
    * ";XX(...)". */
  function Render(i: Instr): (r: string)
    ensures |r| >= 5 && r[0] == ';' && r[1..3] == Command(i) && r[3] == '(' && r[|r| - 1] == ')'
  {
    ";" + Command(i) + "(" + Arguments(i) + ")"
  }
}

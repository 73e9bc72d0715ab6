/**
 * LineData, the record one terminal line is described by (src/termynal.ts:16-23,
 * src/lines/base.ts:3-10). A JavaScript object literal is kept as its list of
 * own properties in insertion order, because `for (key in line)` walks them in
 * that order.
 */
module LineRecords {
  import opened JsString

  /** A property value: a string, a number, a boolean, or undefined. */
  datatype Val = Str(s: string) | Number(n: nat) | Bool(b: bool) | Undefined

  datatype Prop = Prop(key: string, val: Val)

  type LineData = seq<Prop>

  /** Property access `line[key]`: undefined when the key is absent. */
  function Get(line: LineData, key: string): Val {
    if line == [] then Undefined
    else if line[0].key == key then line[0].val
    else Get(line[1..], key)
  }

  /** What a template literal `${v}` makes of a value. */
  function ToText(v: Val): string {
    match v
    case Str(s) => s
    case Number(n) => NatToString(n)
    case Bool(b) => if b then "true" else "false"
    case Undefined => "undefined"
  }

  /** `line.value ?? ""`. */
  function ValueOrEmpty(line: LineData): string {
    var v := Get(line, "value");
    if v.Undefined? then "" else ToText(v)
  }

  /** `line.type ?? ""`. */
  function TypeOrEmpty(line: LineData): string {
    var v := Get(line, "type");
    if v.Undefined? then "" else ToText(v)
  }
}

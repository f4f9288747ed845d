/** Values that cross the operator socket: JavaScript strings as UTF-16 code
    units and parsed JSON documents. */
module Json {

  /** One UTF-16 code unit, the unit in which JavaScript measures a string. */
  type Unit = u: int | 0 <= u < 0x1_0000

  type Text = seq<Unit>

  /** The two halves of a surrogate pair, one character of four bytes. */
  predicate High(u: Unit) { 0xD800 <= u < 0xDC00 }

  predicate Low(u: Unit) { 0xDC00 <= u < 0xE000 }

  /** A parsed document. A number too large for a double parses to Infinity. A
      field that is undefined is a field that is absent. */
  datatype Json =
    | Null
    | Bool(b: bool)
    | Num(n: real)
    | Infinite
    | Str(s: Text)
    | Arr(items: seq<Json>)
    | Obj(fields: map<string, Json>)

  type Fields = map<string, Json>

  datatype Option<+T> = None | Some(value: T)

  /** The text of a string literal of the program. */
  function Lit(s: string): (t: Text)
    ensures |t| == |s|
  {
    seq(|s|, i requires 0 <= i < |s| => if s[i] as int < 0x1_0000 then s[i] as int else 0xFFFD)
  }

  /** `f[key] === "word"`. */
  predicate Is(f: Fields, key: string, word: string) {
    key in f && f[key] == Str(Lit(word))
  }

  /** `Number.isInteger`. */
  predicate IsInteger(j: Json) {
    j.Num? && j.n == j.n.Floor as real
  }

  /** `t.slice(0, n)`. */
  function Prefix(t: Text, n: nat): (p: Text)
    ensures |p| <= n && |p| <= |t|
  {
    if |t| <= n then t else t[..n]
  }
}

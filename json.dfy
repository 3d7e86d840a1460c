/** The JSON tree of kotlinx.serialization (`JsonElement`), over the values of
    section 3 of RFC 8259. Parsing JSON text into this tree is not modelled:
    decoders elsewhere are abstract partial functions. */
module Json {

  /** `JsonPrimitive` (string, number literal, boolean, `JsonNull`),
      `JsonArray` and `JsonObject`. A number keeps its literal text, as
      kotlinx does. */
  datatype JsonElement =
    | Str(str: string)
    | Num(literal: string)
    | Bool(b: bool)
    | Null
    | Arr(elements: seq<JsonElement>)
    | Obj(fields: map<string, JsonElement>)
  {
    /** `is JsonPrimitive`: kotlinx's `JsonNull` is a primitive too. */
    predicate IsPrimitive() {
      Str? || Num? || Bool? || Null?
    }
  }

  /** `JsonPrimitive.content`: the string for a string, the literal for a
      number, "true"/"false" for a boolean and "null" for `JsonNull`. */
  function Content(e: JsonElement): (r: string)
    requires e.IsPrimitive()
    ensures e.Str? ==> r == e.str
    ensures e.Null? ==> r == "null" && !IsBlank(r)
    ensures e.Bool? ==> r == (if e.b then "true" else "false") && !IsBlank(r)
    ensures e.Num? ==> r == e.literal
  {
    match e
    case Str(s) => s
    case Num(l) => l
    case Bool(b) => if b then "true" else "false"
    case Null => "null"
  }

  /** Kotlin's `Char.isWhitespace()` on the JVM: `Character.isWhitespace`
      (tab, line feed, vertical tab, form feed, carriage return, the four
      information separators U+001C..U+001F) or `Character.isSpaceChar`
      (the Unicode space, line and paragraph separators). */
  predicate IsWhitespace(c: char): (r: bool)
    ensures c == ' ' || c == '\t' || c == '\n' || c == '\r' ==> r
    ensures '0' <= c <= '9' || 'a' <= c <= 'z' || 'A' <= c <= 'Z' ==> !r
  {
    || '\t' <= c <= '\r'
    || '\U{001C}' <= c <= '\U{001F}'
    || c == ' ' || c == '\U{00A0}' || c == '\U{1680}'
    || '\U{2000}' <= c <= '\U{200A}'
    || c == '\U{2028}' || c == '\U{2029}' || c == '\U{202F}' || c == '\U{205F}'
    || c == '\U{3000}'
  }

  /** Kotlin's `CharSequence.isBlank()`: empty or whitespace only. */
  predicate IsBlank(s: string): (r: bool)
    ensures s == "" ==> r
    ensures |s| > 0 && !IsWhitespace(s[0]) ==> !r
  {
    forall i :: 0 <= i < |s| ==> IsWhitespace(s[i])
  }
}

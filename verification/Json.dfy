/** JSON values, as tool arguments arrive. */
module Json {

  /** The text of a float: unlike an integer's, it has a point, an exponent or a letter of NaN or Infinity. */
  predicate IsFloatText(s: string) {
    && ('.' in s || 'e' in s || 'N' in s || 'I' in s)
    && (forall c :: c in s ==> '0' <= c <= '9' || c in {'-', '+', '.', 'e', 'N', 'a', 'I', 'n', 'f', 'i', 't', 'y'})
  }

  type FloatText = s: string | IsFloatText(s) witness "0.0"

  /** Floats are represented by the text printed for them; booleans are kept apart from integers. */
  datatype Value =
    | Null
    | Bool(b: bool)
    | Integer(i: int)
    | Float(text: FloatText)
    | Text(s: string)
    | Array(items: seq<Value>)
    | Object(members: map<string, Value>)

  type Args = map<string, Value>
}

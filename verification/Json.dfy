/** JSON values as `serde_json::Value` holds them. An object is a map: equality
    there ignores entry order. Numbers are their literal tokens. */
module Json {

  predicate IsNumberChar(c: char) {
    '0' <= c <= '9' || c == '+' || c == '-' || c == '.' || c == 'e' || c == 'E'
  }

  predicate IsNumberToken(t: string) {
    t != "" && forall i :: 0 <= i < |t| ==> IsNumberChar(t[i])
  }

  type NumberToken = t: string | IsNumberToken(t) witness "0"

  datatype Value =
    | Null
    | Bool(b: bool)
    | Number(token: NumberToken)
    | Str(s: string)
    | Array(items: seq<Value>)
    | Object(fields: map<string, Value>)
  {
    predicate IsScalar() {
      !Array? && !Object?
    }
  }
}

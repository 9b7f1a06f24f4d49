/**
 * The part of a JSON value that the model-options migration looks at. JSON.parse itself is
 * not modelled; a parser is a function from the stored text to a ParseResult.
 */
module Json {

  import opened Wrappers

  datatype JVal =
    | JNull                         // `null`: typeof says 'object', but it has no properties
    | JScalar                       // a number or a boolean
    | JStr(s: string)
    | JArr(elems: seq<JVal>)
    | JObj(value: Option<string>)   // an object; `value` is its "value" property (None: absent)

  /** What JSON.parse either throws on or returns. */
  datatype ParseResult = ParseError | Parsed(v: JVal)

  /** The JSON value that JSON.stringify writes for one element of a `(string | undefined)[]`. */
  function Encode(x: Option<string>): (r: JVal)
  {
    match x
    case Some(s) => JStr(s)
    case None => JNull
  }

  /** The elements of the JSON array that JSON.stringify writes for `xs`. */
  function EncodeAll(xs: seq<Option<string>>): (r: seq<JVal>)
  {
    seq(|xs|, i requires 0 <= i < |xs| => Encode(xs[i]))
  }

  /** JSON.parse(JSON.stringify(xs)) gives back the array of encoded elements. */
  ghost predicate RoundTrips(parse: string -> ParseResult,
                             stringify: seq<Option<string>> -> string,
                             xs: seq<Option<string>>)
  {
    parse(stringify(xs)) == Parsed(JArr(EncodeAll(xs)))
  }

}

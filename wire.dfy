/** Values that cross the boundary between the license client and the
    libraries it calls: Java bytes, the JSON trees the Gson library hands
    back, the outcome of an HTTP call and the request the client sends.
    The libraries themselves are not modelled; their results are inputs. */
module Wire {

  datatype Option<+T> = None | Some(value: T)

  /** A Java `byte`: signed, two's complement, eight bits. */
  newtype JByte = x: int | -128 <= x < 128

  /** The unsigned reading of a byte, as `String.format("%02X", b)` uses it
      (the formatter adds 2^8 to a negative `Byte`). */
  function Unsigned(b: JByte): (u: int)
    ensures 0 <= u < 256
    ensures u % 256 == (b as int) % 256
  {
    if b < 0 then b as int + 256 else b as int
  }

  /** The byte whose unsigned reading is `u`. */
  function Signed(u: int): (b: JByte)
    requires 0 <= u < 256
    ensures Unsigned(b) == u
  {
    if u >= 128 then (u - 256) as JByte else u as JByte
  }

  lemma SignedUnsigned(b: JByte)
    ensures Signed(Unsigned(b)) == b
  {
  }

  /** A JSON value as Gson's tree model holds it. A `Primitive` is a string,
      number or boolean, kept as the text `getAsString` gives for it. */
  datatype JsonValue =
    | Primitive(text: string)
    | Null
    | Array(items: seq<JsonValue>)
    | Object(members: map<string, JsonValue>)

  /** Gson's `JsonElement.getAsString()`: a primitive gives its text, an
      array of exactly one element gives that element's string, and
      everything else throws (None). */
  function AsString(v: JsonValue): (r: Option<string>)
    ensures v.Primitive? ==> r == Some(v.text)
    ensures r.Some? ==> v.Primitive? || (v.Array? && |v.items| == 1)
  {
    match v
    case Primitive(t) => Some(t)
    case Array(items) => if |items| == 1 then AsString(items[0]) else None
    case Null => None
    case Object(_) => None
  }

  /** What parsing a text as a JSON object gives: the object's members, or
      `NotObject` when the text is malformed, empty, `null` or a JSON value
      other than an object (every case in which Gson throws or returns null). */
  datatype Parsed = NotObject | Obj(fields: map<string, JsonValue>)

  /** Gson's parser, a library function, passed in where it is used. */
  type Parser = string -> Parsed

  /** The member `key` as a string, as `json.has(key)` followed by
      `json.get(key).getAsString()` gives it: `Absent` when the object has no
      such member, `Unreadable` when `getAsString` throws. */
  datatype Field = Absent | Unreadable | Text(s: string)

  function StringField(fields: map<string, JsonValue>, key: string): (r: Field)
    ensures r.Absent? <==> key !in fields
    ensures r.Text? <==> key in fields && AsString(fields[key]).Some?
    ensures r.Text? ==> Some(r.s) == AsString(fields[key])
  {
    if key !in fields then Absent
    else match AsString(fields[key])
      case Some(s) => Text(s)
      case None => Unreadable
  }

  /** The outcome of `HttpClient.send`: a response with its status code and
      body, or a `java.net.ConnectException`. */
  datatype HttpOutcome = Response(status: int, body: string) | ConnectError

  /** A POST request: the URL and the members of its JSON body. */
  datatype Request = Request(url: string, body: map<string, string>)
}

/**
 * The vocabulary shared by the client and the dispatcher: HTTP methods as
 * the fetch library names them, JSON object bodies, and response headers
 * with JavaScript's truthiness test on a looked-up value.
 */
module Http {
  import opened Wrappers

  /** The request methods of the fetch library's `FetchMethods` enumeration. */
  datatype Method = Post | Get | Put | Patch | Delete | Head | Options | Connect | Trace {
    /** The enumeration's string value, which is what a template string prints. */
    function Name(): (n: string)
      ensures |n| > 0 && '/' !in n
    {
      match this
      case Post => "POST"
      case Get => "GET"
      case Put => "PUT"
      case Patch => "PATCH"
      case Delete => "DELETE"
      case Head => "HEAD"
      case Options => "OPTIONS"
      case Connect => "CONNECT"
      case Trace => "TRACE"
    }
  }

  /** A field of a flat JSON object: the balance data holds strings and numbers. */
  datatype Field = Text(text: string) | Number(number: int)

  /** A JSON object; `{}` is `map[]`. */
  type Body = map<string, Field>

  /**
   * Response headers, keyed by lower-case field name: header lookup in the
   * Fetch API ignores case, so the model stores and looks up lower case.
   */
  type Headers = map<string, string>

  /** `headers.get(name)`: the value, or null when the header is absent. */
  function Lookup(h: Headers, name: string): (v: Option<string>)
    ensures v.Some? <==> name in h
    ensures v.Some? ==> v.value == h[name]
  {
    if name in h then Some(h[name]) else None
  }

  /** `if (value)` on a `string | null`: null and the empty string are falsy. */
  predicate Truthy(v: Option<string>) {
    v.Some? && v.value != ""
  }
}

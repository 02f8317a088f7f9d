/** Values shared by the two edge functions: HTTP responses over abstract
    bodies, header maps with exact-string names, and the mutable `Headers`
    object of the Fetch API that both handlers edit in place. */
module Http {

  datatype Option<+T> = None | Some(value: T)

  /** A header list, one value per name; names are compared as exact strings. */
  type Headers = map<string, string>

  /** A response body is never inspected: it is absent, a literal text, or an
      upstream stream identified only by an opaque tag. */
  datatype Body = NoBody | Text(text: string) | Stream(tag: nat)

  datatype Response = Response(status: nat, headers: Headers, body: Body)

  /** What `Response.ok` reports: the status lies in 200..299. */
  predicate IsOkStatus(status: nat) {
    200 <= status <= 299
  }

  /** The `Headers` object of a copied response (`new Response(body, init)`):
      it starts as a copy of the header list it was built from, and each
      `set` replaces the value stored under one name. */
  class HeaderMap {
    var entries: Headers

    constructor (init: Headers)
      ensures entries == init
    {
      entries := init;
    }

    method Set(name: string, value: string)
      modifies this
      ensures entries == old(entries)[name := value]
    {
      entries := entries[name := value];
    }
  }
}

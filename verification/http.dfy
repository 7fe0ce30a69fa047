/**
 * What the three server entry points share: a response is a status code and
 * a JSON body, and an `Authorization` header is accepted only with the
 * `Bearer ` prefix. CORS headers are not modelled.
 */
module Http {
  import opened Wrappers
  import opened Docs
  import opened Text

  datatype Response = Response(status: int, body: Value)

  /** A JSON response. */
  function Json(status: int, fields: map<string, Value>): (r: Response)
    ensures r.status == status && r.body == Obj(fields)
  {
    Response(status, Obj(fields))
  }

  /** `{ error: message }` with the given status. */
  function ErrorResponse(status: int, message: string): (r: Response)
    ensures r.status == status && r.body.Obj? && r.body.fields == map["error" := Str(message)]
  {
    Json(status, map["error" := Str(message)])
  }

  /** A body-less response (a preflight answer). */
  function Empty(status: int): (r: Response)
    ensures r.status == status && r.body == Null
  {
    Response(status, Null)
  }

  const BearerPrefix := "Bearer "

  /** `authHeader?.startsWith('Bearer ')` (equivalently `authHeader && authHeader.startsWith(...)`). */
  predicate HasBearer(header: Option<string>) {
    header.Some? && StartsWith(header.value, BearerPrefix)
  }

  /** `authHeader.split('Bearer ')[1]`: the text after the prefix, up to any further `Bearer `. */
  function BearerToken(header: string): (token: string)
    requires StartsWith(header, BearerPrefix)
    ensures token <= header[|BearerPrefix|..]
    ensures !Contains(header[|BearerPrefix|..], BearerPrefix) ==> token == header[|BearerPrefix|..]
  {
    var rest := header[|BearerPrefix|..];
    ContainsIffOccurs(rest, BearerPrefix);
    BeforeFirst(rest, BearerPrefix)
  }

  /** A header made of the prefix and a token that does not repeat it yields that token. */
  lemma BearerTokenOf(token: string)
    requires !Contains(token, BearerPrefix)
    ensures HasBearer(Some(BearerPrefix + token))
    ensures BearerToken(BearerPrefix + token) == token
  {
    assert (BearerPrefix + token)[|BearerPrefix|..] == token;
  }
}

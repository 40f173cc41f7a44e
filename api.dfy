/**
 * The two pieces of the HTTP client whose logic reaches the pages: the URL of
 * a rounds page request and the error a failed login rejects with. Every
 * request itself is an abstract `Outcome` supplied by the caller.
 */
module Api {
  import opened Wrappers

  const RoundsPath: string := "/api/v1/rounds"
  const CursorQuery: string := "?cursor="

  /** JavaScript truthiness of an optional string: present and non-empty. */
  predicate Truthy(s: Option<string>) {
    s.Some? && s.value != ""
  }

  /**
   * The raw text after `?cursor=` in a rounds URL, if any. This is not a
   * query parser: it neither splits at `&` or `#` nor decodes `+` or `%`.
   */
  function CursorOf(url: string): Option<string> {
    var prefix := RoundsPath + CursorQuery;
    if prefix <= url && |url| > |prefix| then Some(url[|prefix|..]) else None
  }

  /** URL of `GET /rounds`: the cursor goes into the query only when it is truthy. */
  function RoundsUrl(cursor: Option<string>): (url: string)
    ensures RoundsPath <= url
    ensures url == RoundsPath <==> !Truthy(cursor)
    ensures CursorOf(url) == if Truthy(cursor) then cursor else None
  {
    if Truthy(cursor) then
      var url := RoundsPath + CursorQuery + cursor.value;
      assert RoundsPath + CursorQuery <= url;
      assert url[|RoundsPath + CursorQuery|..] == cursor.value;
      assert url[..|RoundsPath|] == RoundsPath;
      url
    else
      RoundsPath
  }

  /** What a failed login (non-2xx) rejects with: an Error carrying the body text, or a default text. */
  function LoginFailure(bodyText: string): (t: Thrown)
    ensures t.ErrorObject? && t.message != ""
    ensures bodyText != "" ==> t.message == bodyText
    ensures bodyText == "" ==> t.message == "Invalid credentials"
  {
    ErrorObject(if bodyText != "" then bodyText else "Invalid credentials")
  }
}

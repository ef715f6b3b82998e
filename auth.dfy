/**
 * Bearer-token parsing and checking (`core/auth.py`; `routes/upload.py`
 * carries a copy of `_get_bearer` with the same body).
 *
 * The request is reduced to the value of its Authorization header, `None`
 * when the request has none (the header lookup is case-insensitive, so the
 * source's two spellings of the name find the same header).
 */
module Auth {
  import opened Strings
  import opened Wrappers

  /** `_get_bearer`: the token of a `Bearer <token>` header, scheme in any case. */
  function GetBearer(header: Option<string>): Option<string> {
    if header.None? || header.value == [] then None
    else
      var parts := Split(header.value);
      if |parts| == 2 && Lower(parts[0]) == "bearer" then Some(parts[1]) else None
  }

  /** What `require_bearer` does with a request: let it through or raise 401. */
  datatype Outcome = Allowed | Rejected(status: int)

  const HTTP_401_UNAUTHORIZED: int := 401

  /** `require_bearer(req, expected)`. */
  function RequireBearer(header: Option<string>, expected: string): Outcome {
    var tok := GetBearer(header);
    if tok != Some(expected) then Rejected(HTTP_401_UNAUTHORIZED) else Allowed
  }

  // ---------------------------------------------------------------------------
  // Properties

  /**
   * A token comes back exactly when the header splits into two parts whose
   * first is "bearer" in any case; the token is the second part, a non-empty
   * run without whitespace. A missing or empty header gives no token.
   */
  lemma GetBearerSpec(header: Option<string>)
    ensures header.None? || header.value == [] ==> GetBearer(header).None?
    ensures GetBearer(header).Some? <==>
      header.Some? && |Split(header.value)| == 2 && Lower(Split(header.value)[0]) == "bearer"
    ensures GetBearer(header).Some? ==>
      GetBearer(header).value == Split(header.value)[1] && IsWord(GetBearer(header).value)
  {
  }

  /** `<scheme> <token>` with the scheme "bearer" in any case yields the token. */
  lemma BearerOfHeader(scheme: string, token: string)
    requires IsWord(scheme) && IsWord(token) && Lower(scheme) == "bearer"
    ensures GetBearer(Some(scheme + " " + token)) == Some(token)
  {
    var words := [scheme, token];
    SplitJoinWords(words);
    assert Join(words, " ") == scheme + " " + token;
  }

  /** A header of any other number of words, such as "Bearer a b", yields nothing. */
  lemma BearerWrongPartCount(words: seq<string>)
    requires forall k | 0 <= k < |words| :: IsWord(words[k])
    requires |words| != 2
    ensures GetBearer(Some(Join(words, " "))) == None
  {
    SplitJoinWords(words);
  }

  /** Two words under any other scheme yield nothing. */
  lemma BearerWrongScheme(scheme: string, token: string)
    requires IsWord(scheme) && IsWord(token) && Lower(scheme) != "bearer"
    ensures GetBearer(Some(scheme + " " + token)) == None
  {
    var words := [scheme, token];
    SplitJoinWords(words);
    assert Join(words, " ") == scheme + " " + token;
  }

  /**
   * `require_bearer` lets a request through exactly when its token is the
   * expected one: a missing, malformed, or differing header is always
   * rejected with 401, and an empty expected token admits nobody.
   */
  lemma RequireBearerSpec(header: Option<string>, expected: string)
    ensures RequireBearer(header, expected) == Allowed <==> GetBearer(header) == Some(expected)
    ensures RequireBearer(header, expected) != Allowed ==>
      RequireBearer(header, expected) == Rejected(401)
    ensures GetBearer(header).None? ==> RequireBearer(header, expected) == Rejected(401)
    ensures expected == [] ==> RequireBearer(header, expected) == Rejected(401)
  {
    GetBearerSpec(header);
  }

  /** The header a client builds from the expected token is accepted. */
  lemma RequireBearerAccepts(expected: string)
    requires IsWord(expected)
    ensures RequireBearer(Some("Bearer " + expected), expected) == Allowed
  {
    assert Lower("Bearer") == "bearer" by {
      var l := Lower("Bearer");
      assert l[0] == 'b' && l[1] == 'e' && l[2] == 'a' && l[3] == 'r' && l[4] == 'e' && l[5] == 'r';
    }
    assert IsWord("Bearer");
    BearerOfHeader("Bearer", expected);
    assert "Bearer" + " " + expected == "Bearer " + expected;
  }

  /** "Bearer a b" is refused whatever the expected token. */
  lemma RequireBearerRejectsExtraParts(a: string, b: string, expected: string)
    requires IsWord(a) && IsWord(b)
    ensures RequireBearer(Some("Bearer " + a + " " + b), expected) == Rejected(401)
  {
    var words := ["Bearer", a, b];
    assert IsWord("Bearer");
    BearerWrongPartCount(words);
    assert words[1..] == [a, b] && words[1..][1..] == [b];
    assert Join(words[1..], " ") == a + " " + b;
    assert Join(words, " ") == "Bearer" + " " + (a + " " + b);
    assert "Bearer" + " " + (a + " " + b) == "Bearer " + a + " " + b;
  }
}

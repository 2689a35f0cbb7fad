/**
 * Validation and normalisation of the resume identifier done when a
 * downloader is constructed: either the input is the bare 9-character token,
 * or the token is the first 9 letters/digits that follow `resume.io/r/`.
 * The two regular expressions of the source are replaced by the matchers
 * below, which follow Python's `re` semantics for them.
 */
module ResumeId {
  import opened Wrappers

  /** Length of a resume token. */
  const IdLength := 9

  /** Length of the look-behind `resume.io/r/` (its `.` stands for one character). */
  const LookBehindLength := 12

  /** HTTP status of the error raised for an invalid identifier. */
  const BadRequest := 400

  const InvalidIdPrefix := "Invalid resume id: "

  /** The HTTP error raised to the client: a status code and a detail message. */
  datatype HttpError = HttpError(statusCode: int, detail: string)

  /** The character class `[a-zA-Z0-9]` (ASCII only). */
  predicate IsAlnum(c: char) { 'a' <= c <= 'z' || 'A' <= c <= 'Z' || '0' <= c <= '9' }

  predicate AllAlnum(s: string) { forall i :: 0 <= i < |s| ==> IsAlnum(s[i]) }

  /**
   * `^[a-zA-Z0-9]{9}$` found by `search`: `^` anchors at the start only, and
   * `$` matches at the end or just before a single final newline.
   */
  predicate MatchesIdPattern(s: string)
  {
    |s| >= IdLength && AllAlnum(s[..IdLength]) &&
    (|s| == IdLength || (|s| == IdLength + 1 && s[IdLength] == '\n'))
  }

  /**
   * The look-behind `resume.io/r/` ends at position p. Its `.` is not escaped,
   * so it matches any character except a newline.
   */
  predicate LookBehindAt(s: string, p: int)
  {
    LookBehindLength <= p <= |s| &&
    s[p - 12 .. p - 6] == "resume" && s[p - 6] != '\n' && s[p - 5 .. p] == "io/r/"
  }

  /** `(?<=resume.io/r/)([a-zA-Z0-9]){9}` matches starting at position p. */
  predicate UrlMatchAt(s: string, p: int)
  {
    LookBehindAt(s, p) && p + IdLength <= |s| && AllAlnum(s[p .. p + IdLength])
  }

  /** What `search` does with the URL pattern: the leftmost match at or after `from`. */
  function FindUrlMatch(s: string, from: nat): (r: Option<nat>)
    ensures r.Some? ==> from <= r.value && UrlMatchAt(s, r.value)
    ensures r.Some? ==> forall q :: from <= q < r.value ==> !UrlMatchAt(s, q)
    ensures r.None? ==> forall q :: from <= q ==> !UrlMatchAt(s, q)
    decreases |s| - from
  {
    if from + IdLength > |s| then None
    else if UrlMatchAt(s, from) then Some(from)
    else FindUrlMatch(s, from + 1)
  }

  function InvalidIdError(input: string): HttpError
  {
    HttpError(BadRequest, InvalidIdPrefix + input)
  }

  /**
   * The identifier the downloader keeps, or the error its construction raises.
   * What is kept always passes the token pattern; a refusal is the 400 error
   * naming the input.
   */
  function Normalise(input: string): (r: Result<string, HttpError>)
    ensures r.Ok? ==> MatchesIdPattern(r.value)
    ensures r.Err? ==> r.error == HttpError(BadRequest, InvalidIdPrefix + input)
  {
    if MatchesIdPattern(input) then Ok(input)
    else match FindUrlMatch(input, 0)
      case Some(p) => Ok(input[p .. p + IdLength])
      case None => Err(InvalidIdError(input))
  }

  /** A bare 9-character token is accepted and kept as it is. */
  lemma BareIdKept(input: string)
    requires |input| == IdLength && AllAlnum(input)
    ensures Normalise(input) == Ok(input)
  {
  }

  /**
   * Any other input carrying the URL pattern is cut down to the first token
   * that follows `resume?io/r/`; whatever comes after those 9 characters is dropped.
   */
  lemma UrlIdExtracted(input: string, p: int)
    requires !MatchesIdPattern(input) && UrlMatchAt(input, p)
    requires forall q :: 0 <= q < p ==> !UrlMatchAt(input, q)
    ensures Normalise(input) == Ok(input[p .. p + IdLength])
  {
  }

  /**
   * The input is rejected exactly when it matches neither pattern, and the
   * rejection is a status-400 error whose detail ends with the input itself.
   */
  lemma InvalidIdRejected(input: string)
    ensures Normalise(input).Err? <==> !MatchesIdPattern(input) && forall p :: !UrlMatchAt(input, p)
    ensures Normalise(input).Err? ==>
      var e := Normalise(input).error;
      e.statusCode == BadRequest && |e.detail| >= |input| && e.detail[|e.detail| - |input| ..] == input
  {
  }

  /** An accepted identifier is itself accepted unchanged. */
  lemma NormaliseIdempotent(input: string)
    ensures Normalise(input).Ok? ==> Normalise(Normalise(input).value) == Normalise(input)
  {
  }

  const ShareUrlPrefix := "https://resume.io/r/"

  /** `https://resume.io/r/<token>` followed by anything (a path, a query) gives the token. */
  lemma ShareUrlGivesToken(token: string, rest: string)
    requires |token| == IdLength && AllAlnum(token)
    ensures Normalise(ShareUrlPrefix + token + rest) == Ok(token)
  {
    var s := ShareUrlPrefix + token + rest;
    assert ShareUrlPrefix == "https://" + "resume" + ".io/r/";
    assert s[..8] == "https://";
    assert s[8 .. 14] == "resume";
    assert s[15 .. 20] == "io/r/";
    assert s[20 .. 29] == token;
    assert UrlMatchAt(s, 20);
    forall q | 0 <= q < 20 ensures !UrlMatchAt(s, q) {
      NotLookBehind(s, q, 8);
    }
    UrlIdExtracted(s, 20);
  }

  /** `https://resume.io/r/abc123XYZ/edit` gives `abc123XYZ`. */
  lemma ShareUrlExample()
    ensures Normalise("https://resume.io/r/abc123XYZ/edit") == Ok("abc123XYZ")
  {
    var token, rest := "abc123XYZ", "/edit";
    assert ShareUrlPrefix + token + rest == "https://resume.io/r/abc123XYZ/edit";
    assert AllAlnum(token);
    ShareUrlGivesToken(token, rest);
  }

  /** No look-behind ends where its leading `r` would fall on a character other than `r`. */
  lemma NotLookBehind(s: string, q: int, k: nat)
    requires k <= |s| && forall i :: 0 <= i < k ==> s[i] != 'r'
    requires q < LookBehindLength + k
    ensures !LookBehindAt(s, q)
  {
    if LookBehindLength <= q <= |s| {
      assert s[q - 12 .. q - 6][0] == s[q - 12] != 'r';
    }
  }

  /** Python's `$` also matches before a final newline: this input is kept, newline included. */
  lemma TrailingNewlineExample()
    ensures Normalise("abc123XYZ\n") == Ok("abc123XYZ\n")
  {
  }

  /** The unescaped `.` lets any character stand between `resume` and `io`. */
  lemma AnySeparatorExample()
    ensures Normalise("resume-io/r/abc123XYZ0") == Ok("abc123XYZ")
  {
    var s := "resume-io/r/abc123XYZ0";
    assert s == "resume" + "-io/r/" + "abc123XYZ" + "0";
    assert s[..6] == "resume";
    assert s[7 .. 12] == "io/r/";
    assert s[12 .. 21] == "abc123XYZ";
    assert UrlMatchAt(s, 12);
    UrlIdExtracted(s, 12);
  }

  /** An input with neither pattern is refused. */
  lemma RejectedExample()
    ensures Normalise("abc123") == Err(HttpError(400, "Invalid resume id: abc123"))
  {
    assert FindUrlMatch("abc123", 0) == None;
    assert InvalidIdPrefix + "abc123" == "Invalid resume id: abc123";
  }
}

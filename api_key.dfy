/**
 * Where the two API routes take the Gemini key from: the request body, the `x-api-key`
 * header, the `authorization` header with `Bearer ` removed, the server environment,
 * in that order, the first non-empty one winning (`a || b || c || d || ''`).
 */
module ApiKey {
  import opened Wrappers
  import opened Text
  import opened JsValues

  /** The places a key can come from, as the handler sees them. */
  datatype KeySources = KeySources(
    bodyKey: Option<string>,
    xApiKey: Option<string>,
    authorization: Option<string>,
    env: Option<string>)

  /** The first candidate that is a non-empty string, or `''` when there is none. */
  function FirstNonEmpty(cands: seq<Option<string>>): (r: string)
    ensures r == "" <==> forall i :: 0 <= i < |cands| ==> !NonEmpty(cands[i])
    ensures r != "" ==> exists i :: 0 <= i < |cands| && cands[i] == Some(r) &&
                                    forall j :: 0 <= j < i ==> !NonEmpty(cands[j])
  {
    if cands == [] then ""
    else if NonEmpty(cands[0]) then cands[0].value
    else
      var r := FirstNonEmpty(cands[1..]);
      assert r != "" ==> exists i :: 1 <= i < |cands| && cands[i] == Some(r) &&
                                     forall j :: 0 <= j < i ==> !NonEmpty(cands[j]) by {
        if r != "" {
          var i :| 0 <= i < |cands[1..]| && cands[1..][i] == Some(r) &&
                   forall j :: 0 <= j < i ==> !NonEmpty(cands[1..][j]);
          assert forall j :: 1 <= j < i + 1 ==> cands[j] == cands[1..][j - 1];
        }
      }
      r
  }

  /** `authorization?.replace('Bearer ', '')`: the first `Bearer ` removed, wherever it is. */
  function BearerStripped(authorization: Option<string>): Option<string> {
    match authorization
    case None => None
    case Some(a) => Some(ReplaceFirst(a, "Bearer ", ""))
  }

  function Candidates(src: KeySources): seq<Option<string>> {
    [src.bodyKey, src.xApiKey, BearerStripped(src.authorization), src.env]
  }

  /** The key the handler uses. */
  function ResolveKey(src: KeySources): (key: string)
    ensures key == "" <==> forall i :: 0 <= i < 4 ==> !NonEmpty(Candidates(src)[i])
  {
    FirstNonEmpty(Candidates(src))
  }

  /** A non-empty body key wins over every header and the environment. */
  lemma BodyKeyWins(src: KeySources)
    requires NonEmpty(src.bodyKey)
    ensures ResolveKey(src) == src.bodyKey.value
  {
  }

  /** Without a body key, a non-empty `x-api-key` header wins over the rest. */
  lemma HeaderKeyNext(src: KeySources)
    requires !NonEmpty(src.bodyKey) && NonEmpty(src.xApiKey)
    ensures ResolveKey(src) == src.xApiKey.value
  {
    var c := Candidates(src);
    assert c[0] == src.bodyKey && c[1] == src.xApiKey && NonEmpty(c[1]);
    assert ResolveKey(src) != "";
    var i :| 0 <= i < |c| && c[i] == Some(ResolveKey(src)) && forall j :: 0 <= j < i ==> !NonEmpty(c[j]);
    assert i == 1;
  }

  /** The environment key is used only when no request source supplies one. */
  lemma EnvKeyLast(src: KeySources)
    requires !NonEmpty(src.bodyKey) && !NonEmpty(src.xApiKey) &&
             !NonEmpty(BearerStripped(src.authorization)) && NonEmpty(src.env)
    ensures ResolveKey(src) == src.env.value
  {
    var c := Candidates(src);
    assert c[0] == src.bodyKey && c[1] == src.xApiKey && c[2] == BearerStripped(src.authorization);
    assert c[3] == src.env && NonEmpty(c[3]);
    assert ResolveKey(src) != "";
    var i :| 0 <= i < |c| && c[i] == Some(ResolveKey(src)) && forall j :: 0 <= j < i ==> !NonEmpty(c[j]);
    assert i == 3;
  }

  /** A bearer token is used without its scheme prefix. */
  lemma BearerPrefixRemoved(token: string)
    requires token != ""
    ensures ResolveKey(KeySources(None, None, Some("Bearer " + token), None)) == token
  {
    var a := "Bearer " + token;
    assert a[..7] == "Bearer ";
    FindAt(a, "Bearer ", 0);
    assert a[7..] == token;
    assert Find(a, "Bearer ") == Some(0);
    assert ReplaceFirst(a, "Bearer ", "") == a[..0] + "" + a[7..];
    assert a[..0] + "" + a[7..] == token;
    var src := KeySources(None, None, Some(a), None);
    assert BearerStripped(src.authorization) == Some(token);
    var c := Candidates(src);
    assert c[2] == Some(token) && NonEmpty(c[2]);
    assert ResolveKey(src) != "";
    var i :| 0 <= i < |c| && c[i] == Some(ResolveKey(src)) && forall j :: 0 <= j < i ==> !NonEmpty(c[j]);
    assert i == 2;
  }
}

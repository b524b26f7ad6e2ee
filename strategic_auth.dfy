/**
 * The strategic module's session hook (`useStrategicAuth`): on mount it reads the stored
 * token and user, cleans the token's surrounding quotes and then flags itself mounted.
 * `U` stands for whatever `JSON.parse` makes of the stored user.
 */
module StrategicAuth {
  import opened Options
  import opened Text
  import Surveys

  datatype AuthState<U> = AuthState(token: Option<string>, user: Option<U>, mounted: bool)

  /** `t ? t.replace(/^"|"$/g, '') : null`: a missing or empty stored token gives no token;
      any other loses at most one quote at each end. */
  function CleanToken(stored: Option<string>): (token: Option<string>)
    ensures token.None? <==> stored.None? || stored.value == []
    ensures token.Some? ==> |stored.value| - 2 <= |token.value| <= |stored.value|
    ensures token.Some? ==> token.value == StripQuotes(stored.value)
  {
    if stored.None? || stored.value == [] then None
    else
      StripQuotesSlice(stored.value);
      Some(StripQuotes(stored.value))
  }

  /** `u ? JSON.parse(u) : null`, where `parsed` is the parse's outcome (`None` when it throws
      or yields `null`): a missing or empty stored user gives no user. */
  function UserOf<U>(stored: Option<string>, parsed: Option<U>): (user: Option<U>)
    ensures stored.None? || stored.value == [] ==> user.None?
    ensures user.Some? ==> user == parsed
    ensures stored.Some? && stored.value != [] ==> user == parsed
  {
    if stored.None? || stored.value == [] then None else parsed
  }

  /** The hook's state before the effect has run. */
  function Unmounted<U>(): AuthState<U> {
    AuthState(None, None, false)
  }

  /** The states the effect passes through, one per setter: token, then user, then mounted. */
  function MountSteps<U>(storedToken: Option<string>, storedUser: Option<string>, parsed: Option<U>)
    : (steps: seq<AuthState<U>>)
    ensures |steps| == 3
    ensures forall k :: 0 <= k < |steps| ==> (steps[k].mounted <==> k == |steps| - 1)
    ensures forall k :: 0 <= k < |steps| && steps[k].mounted ==>
      steps[k].token == CleanToken(storedToken) && steps[k].user == UserOf(storedUser, parsed)
  {
    var s0 := Unmounted<U>();
    var s1 := s0.(token := CleanToken(storedToken));
    var s2 := s1.(user := UserOf(storedUser, parsed));
    [s1, s2, s2.(mounted := true)]
  }

  /** A stored `"s"` gives the token `s`; an unquoted one is kept as stored. */
  lemma CleanTokenQuoting(s: string)
    ensures CleanToken(Some("\"" + s + "\"")) == Some(s)
    ensures s != [] && s[0] != '"' && s[|s| - 1] != '"' ==> CleanToken(Some(s)) == Some(s)
  {
    StripQuotesQuoted(s);
    if s != [] && s[0] != '"' && s[|s| - 1] != '"' {
      StripQuotesUnquoted(s);
    }
  }

  /** The edge cases: no token, an empty one, a lone quote and a quoted empty token. */
  lemma CleanTokenEdgeCases()
    ensures CleanToken(None) == None
    ensures CleanToken(Some("")) == None
    ensures CleanToken(Some("\"")) == Some("")
    ensures CleanToken(Some("\"\"")) == Some("")
  {
    StripQuotesEdgeCases();
    StripQuotesQuoted("");
    assert "\"" + "" + "\"" == "\"\"";
  }

  /** The surveys page (whose token comes from the academic session hook, not from this one)
      strips quotes with the same anchored replace: for the same non-empty token text, its
      `Authorization` header carries exactly the token this hook would keep. */
  lemma SurveysHeaderStripsLikeHook(stored: string)
    requires stored != []
    ensures Surveys.BearerHeader(Some(stored)) == "Bearer " + CleanToken(Some(stored)).value
  {
  }
}

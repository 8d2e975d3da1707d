/** components/Login.tsx: the login form. The typed server address is trimmed and
    given an `http://` scheme when it has none; the form then authenticates against
    that address and hands on the resulting configuration. */
module Login {
  import opened Types
  import opened Strings
  import EmbyService

  const CONNECTION_FAILED :=
    "Connection failed. Check URL, credentials, and ensure CORS is enabled on server if using web browser."

  /** The two schemes the form accepts as given (compared case-sensitively). */
  predicate HasScheme(s: string) {
    StartsWith(s, "http://") || StartsWith(s, "https://")
  }

  /** The address the form uses for a typed one. */
  function NormalizedUrl(serverUrl: string): (r: string)
    ensures HasScheme(r) && IsTrimmed(r)
    ensures HasScheme(Trim(serverUrl)) ==> r == Trim(serverUrl)
    ensures !HasScheme(Trim(serverUrl)) ==> r == "http://" + Trim(serverUrl)
  {
    var t := Trim(serverUrl);
    if HasScheme(t) then t
    else
      var r := "http://" + t;
      assert "http://" <= r;
      assert t != [] ==> r[|r| - 1] == t[|t| - 1];
      r
  }

  /** Normalising an address already normalised changes nothing. */
  lemma {:induction false} NormalizeIdempotent(serverUrl: string)
    ensures NormalizedUrl(NormalizedUrl(serverUrl)) == NormalizedUrl(serverUrl)
  {
    var r := NormalizedUrl(serverUrl);
    TrimOfTrimmed(r);
  }

  /** A string that starts with 'H' has neither scheme. */
  lemma UpperCaseStartHasNoScheme(s: string)
    requires s != [] && s[0] == 'H'
    ensures !HasScheme(s)
  {
    assert "http://"[0] == 'h' && "https://"[0] == 'h';
  }

  /** The scheme test is case-sensitive: an upper-case scheme gets a second one. */
  lemma UpperCaseSchemeIsPrefixed(rest: string)
    requires rest == [] || !IsSpace(rest[|rest| - 1])
    ensures NormalizedUrl("HTTP://" + rest) == "http://" + ("HTTP://" + rest)
  {
    var s := "HTTP://" + rest;
    assert s[0] == 'H';
    UpperCaseStartHasNoScheme(s);
    assert s[|s| - 1] == if rest == [] then '/' else rest[|rest| - 1];
    TrimOfTrimmed(s);
  }

  /** Any white space around an address with a scheme is dropped, and nothing else
      changes. */
  lemma SurroundingSpacesDropped(lead: string, address: string, trail: string)
    requires AllSpace(lead) && AllSpace(trail)
    requires HasScheme(address) && !IsSpace(address[|address| - 1])
    ensures NormalizedUrl(lead + address + trail) == address
  {
    assert address[0] == 'h';
    TrimSurrounded(lead, address, trail);
  }

  /** What the server answers to a successful authentication. */
  datatype AuthReply = AuthReply(userName: string, userId: string, accessToken: string)

  /** The form's status. */
  class LoginForm {
    var loading: bool
    var error: string

    constructor ()
      ensures !loading && error == ""
    {
      loading, error := false, "";
    }

    /** `handleLogin`: builds the address step by step, sends the authentication to
        it (`reply` is the server's answer, None when it failed) and, on success,
        hands on a configuration whose address is the normalised one. */
    method HandleLogin(serverUrl: string, username: string, password: string, reply: Option<AuthReply>)
      returns (request: Url, config: Option<ServerConfig>)
      modifies this
      ensures request == EmbyService.AuthenticateRequest(NormalizedUrl(serverUrl), username, password)
      ensures !loading
      ensures config.Some? <==> reply.Some?
      ensures reply.Some? ==> error == "" && config.value == ServerConfig(
                NormalizedUrl(serverUrl), reply.value.userName, reply.value.accessToken, reply.value.userId, None)
      ensures reply.None? ==> error == CONNECTION_FAILED
    {
      loading := true;
      error := "";
      var formattedUrl := Trim(serverUrl);
      if !StartsWith(formattedUrl, "http://") && !StartsWith(formattedUrl, "https://") {
        formattedUrl := "http://" + formattedUrl;
      }
      request := EmbyService.AuthenticateRequest(formattedUrl, username, password);
      if reply.Some? {
        config := Some(ServerConfig(formattedUrl, reply.value.userName, reply.value.accessToken, reply.value.userId, None));
      } else {
        config := None;
        error := CONNECTION_FAILED;
      }
      loading := false;
    }
  }
}

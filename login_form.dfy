/**
 * The login form: when the credentials may be submitted, and the body of the
 * token request built from them (the Resource Owner Password Credentials grant,
 * section 4.3.2 of RFC 6749).
 */
module LoginForm {

  /** The client identifier and secret compiled into the build; their values are configuration. */
  const DESIGNER_NEWS_CLIENT_ID: string
  const DESIGNER_NEWS_CLIENT_SECRET: string

  /** The fixed grant type of the password grant. */
  const GRANT_TYPE_PASSWORD: string := "password"

  /** The credentials may be submitted when neither field is empty; what the characters are does not matter. */
  function IsLoginValid(username: string, password: string): (valid: bool)
    ensures valid <==> username != [] && password != []
  {
    |username| > 0 && |password| > 0
  }

  /**
   * A token request body as section 4.3.2 of RFC 6749 asks for it: grant_type
   * set to "password" and the resource owner's username and password, with the
   * client authenticating by client_id and client_secret in the request body
   * (section 2.3.1 of RFC 6749).
   */
  ghost predicate IsPasswordGrantRequest(form: map<string, string>, username: string, password: string)
  {
    && "grant_type" in form && form["grant_type"] == GRANT_TYPE_PASSWORD
    && "username" in form && form["username"] == username
    && "password" in form && form["password"] == password
    && "client_id" in form && "client_secret" in form
  }

  /** Fills the request form with five successive puts. */
  method BuildLoginParams(username: string, password: string) returns (loginParams: map<string, string>)
    ensures loginParams.Keys == {"client_id", "client_secret", "grant_type", "username", "password"}
    ensures IsPasswordGrantRequest(loginParams, username, password)
    ensures loginParams["client_id"] == DESIGNER_NEWS_CLIENT_ID
    ensures loginParams["client_secret"] == DESIGNER_NEWS_CLIENT_SECRET
  {
    loginParams := map[];
    loginParams := loginParams["client_id" := DESIGNER_NEWS_CLIENT_ID];
    loginParams := loginParams["client_secret" := DESIGNER_NEWS_CLIENT_SECRET];
    loginParams := loginParams["grant_type" := GRANT_TYPE_PASSWORD];
    loginParams := loginParams["username" := username];
    loginParams := loginParams["password" := password];
  }
}

/**
 * The login page shared by the admin and the sub-admin: the ordered checks
 * on the form, the choice of endpoint by login type, the handling of the
 * server's reply, and what is written to browser storage on success.
 */
module AdminLogin {
  import opened Optional
  import opened Js
  import Json
  import Text

  const AdminEndpoint: string := "https://law-firm-backend-e082.onrender.com/api/admin/auth/login"
  const SubAdminEndpoint: string := "https://law-firm-backend-e082.onrender.com/api/subadmin/auth/login"

  const MissingFields: string := "Please enter both email and password."
  const BadEmail: string := "Please enter a valid email address."
  const DefaultLoginError: string := "Incorrect email/password"
  const NetworkError: string := "Network error. Please try again."

  /** The storage keys login writes. */
  const TokenKey: string := "token"
  const ProfileKey: string := "admin"
  /** Where a successful login navigates (after a short delay). */
  const AfterLoginPath: string := "/admin"

  /**
   * The regular expression `^\S+@\S+\.\S+$`, read as its parts: a non-blank
   * run, "@", a non-blank run, ".", a non-blank run, and nothing else.
   */
  ghost predicate MatchesEmailPattern(s: string) {
    exists i, j :: 0 < i && i + 1 < j && j + 1 < |s| && s[i] == '@' && s[j] == '.'
      && Text.NoWhitespace(s[..i]) && Text.NoWhitespace(s[i + 1..j]) && Text.NoWhitespace(s[j + 1..])
  }

  /** The email check as the page computes it: first "@" after the start, then a "." two or more places later, not last. */
  function ValidEmail(s: string): bool {
    Text.NoWhitespace(s)
    && var at := Text.IndexOfFrom(s, '@', 1);
    at < |s| && Text.IndexOfFrom(s, '.', at + 2) + 1 < |s|
  }

  /** The check accepts exactly the strings the regular expression matches. */
  lemma ValidEmailIffPattern(s: string)
    ensures ValidEmail(s) <==> MatchesEmailPattern(s)
  {
    if ValidEmail(s) {
      var i := Text.IndexOfFrom(s, '@', 1);
      var j := Text.IndexOfFrom(s, '.', i + 2);
      assert Text.NoWhitespace(s[..i]) && Text.NoWhitespace(s[i + 1..j]) && Text.NoWhitespace(s[j + 1..]) by {
        var mid, tail := s[i + 1..j], s[j + 1..];
        forall m | 0 <= m < |mid| ensures !Text.IsWhitespace(mid[m]) {
          assert mid[m] == s[i + 1 + m];
        }
        forall m | 0 <= m < |tail| ensures !Text.IsWhitespace(tail[m]) {
          assert tail[m] == s[j + 1 + m];
        }
      }
    }
    if MatchesEmailPattern(s) {
      var i, j :| 0 < i && i + 1 < j && j + 1 < |s| && s[i] == '@' && s[j] == '.'
        && Text.NoWhitespace(s[..i]) && Text.NoWhitespace(s[i + 1..j]) && Text.NoWhitespace(s[j + 1..]);
      forall m | 0 <= m < |s|
        ensures !Text.IsWhitespace(s[m])
      {
        if m < i {
          assert s[..i][m] == s[m];
        } else if i < m < j {
          assert s[i + 1..j][m - (i + 1)] == s[m];
        } else if j < m {
          assert s[j + 1..][m - (j + 1)] == s[m];
        }
      }
      var at := Text.IndexOfFrom(s, '@', 1);
      assert at <= i;
      assert Text.IndexOfFrom(s, '.', at + 2) <= j;
    }
  }

  datatype Check = Proceed | Reject(message: string)

  /** `handleSubmit`'s two checks, in order: both fields filled, then the email pattern. */
  function Validate(email: string, password: string): (r: Check)
    ensures r == Proceed <==> email != "" && password != "" && MatchesEmailPattern(email)
    ensures r == Reject(MissingFields) <==> email == "" || password == ""
    ensures r == Reject(BadEmail) <==> email != "" && password != "" && !MatchesEmailPattern(email)
  {
    ValidEmailIffPattern(email);
    if email == "" || password == "" then Reject(MissingFields)
    else if !ValidEmail(email) then Reject(BadEmail)
    else Proceed
  }

  /** Login type "admin" uses the admin endpoint; every other value the sub-admin one. */
  function Endpoint(loginType: string): (r: string)
    ensures r == AdminEndpoint <==> loginType == "admin"
    ensures r == SubAdminEndpoint <==> loginType != "admin"
  {
    if loginType == "admin" then AdminEndpoint else SubAdminEndpoint
  }

  /** `JSON.stringify({ name: data.name, role: data.role })` for a reply body. */
  function ProfileText(body: JsValue): string {
    match Json.Stringify(Obj([("name", Get(body, "name")), ("role", Get(body, "role"))]))
    case Some(t) => t
    case None => ""
  }

  /** Reads back a stored profile written for a string name and role. */
  function DecodeProfile(t: string): Option<(string, string)> {
    var p1 := "{" + (Json.Quote("name") + ":");
    if !Text.StartsWith(t, p1) then None
    else match Json.ReadQuoted(t[|p1|..])
      case None => None
      case Some((name, rest)) =>
        var p2 := "," + (Json.Quote("role") + ":");
        if !Text.StartsWith(rest, p2) then None
        else match Json.ReadQuoted(rest[|p2|..])
          case None => None
          case Some((role, tail)) => if tail == "}" then Some((name, role)) else None
  }

  /** The text `JSON.stringify` gives for a two-entry object of strings. */
  lemma StringifyPair(k0: string, a: string, k1: string, b: string)
    ensures Json.Stringify(Obj([(k0, Str(a)), (k1, Str(b))])) ==
      Some("{" + ((Json.Quote(k0) + ":" + Json.Quote(a)) + "," + (Json.Quote(k1) + ":" + Json.Quote(b))) + "}")
  {
    var v := Obj([(k0, Str(a)), (k1, Str(b))]);
    var m0 := Json.Quote(k0) + ":" + Json.Quote(a);
    var m1 := Json.Quote(k1) + ":" + Json.Quote(b);
    assert Json.MembersFrom(v, 2) == [];
    assert Json.MembersFrom(v, 1) == [m1];
    assert Json.MembersFrom(v, 0) == [m0, m1];
    assert Text.Join([m0, m1], ",") == m0 + "," + m1 by {
      assert [m0, m1][1..] == [m1];
    }
    assert Json.Stringify(v) == Some("{" + Text.Join(Json.MembersFrom(v, 0), ",") + "}");
  }

  /** The keys appear in the stored text as plain quoted words. */
  lemma ProfileKeysQuoted()
    ensures Json.Quote("name") == "\"name\"" && Json.Quote("role") == "\"role\""
  {
    Json.EscapePlain("name");
    Json.EscapePlain("role");
  }

  /** The text stored for a string name and role. */
  lemma ProfileTextOfStrings(body: JsValue, name: string, role: string)
    requires Get(body, "name") == Str(name) && Get(body, "role") == Str(role)
    ensures ProfileText(body) ==
      ("{" + (Json.Quote("name") + ":")) + (Json.Quote(name) + (("," + (Json.Quote("role") + ":")) + (Json.Quote(role) + "}")))
  {
    StringifyPair("name", name, "role", role);
    SeqAssoc5("{", Json.Quote("name") + ":", Json.Quote(name), "," + (Json.Quote("role") + ":"), Json.Quote(role), "}");
  }

  /** The stored profile holds exactly the reply's name and role and can be read back. */
  lemma ProfileRoundTrip(body: JsValue, name: string, role: string)
    requires Get(body, "name") == Str(name) && Get(body, "role") == Str(role)
    ensures DecodeProfile(ProfileText(body)) == Some((name, role))
  {
    ProfileTextOfStrings(body, name, role);
    var p1, p2 := "{" + (Json.Quote("name") + ":"), "," + (Json.Quote("role") + ":");
    var qn, qr := Json.Quote(name), Json.Quote(role);
    var rest := p2 + (qr + "}");
    var t := p1 + (qn + rest);
    assert Text.StartsWith(t, p1) && t[|p1|..] == qn + rest;
    Json.QuoteRoundTrip(name, rest);
    assert Text.StartsWith(rest, p2) && rest[|p2|..] == qr + "}";
    Json.QuoteRoundTrip(role, "}");
  }

  lemma SeqAssoc5(a: string, b: string, c: string, d: string, e: string, f: string)
    ensures a + ((b + c) + d + e) + f == (a + b) + (c + (d + (e + f)))
  {
  }

  /** What the login request produced: it threw, or a reply with its `ok` status and parsed body. */
  datatype LoginResponse =
    | Thrown
    | Reply(ok: bool, body: JsValue)

  datatype LoginRequest = LoginRequest(endpoint: string, email: string, password: string)

  class LoginPage {
    var email: string
    var password: string
    var loading: bool
    var error: JsValue
    var loginType: string
    /** Browser local storage. */
    var storage: map<string, string>
    /** The login requests sent so far. */
    var requests: seq<LoginRequest>
    /** Navigations scheduled so far. */
    var navigations: seq<string>

    constructor (storage0: map<string, string>)
      ensures email == "" && password == "" && !loading && error == Str("")
      ensures loginType == "subadmin"
      ensures storage == storage0 && requests == [] && navigations == []
    {
      email, password := "", "";
      loading := false;
      error := Str("");
      loginType := "subadmin";
      storage := storage0;
      requests, navigations := [], [];
    }

    method SetEmail(value: string)
      modifies this`email
      ensures email == value
    {
      email := value;
    }

    method SetPassword(value: string)
      modifies this`password
      ensures password == value
    {
      password := value;
    }

    /** The "Sub Admin" and "Admin" toggle buttons. */
    method SetLoginType(t: string)
      requires t == "subadmin" || t == "admin"
      modifies this`loginType
      ensures loginType == t
    {
      loginType := t;
    }

    /**
     * Submitting the form: the error is cleared, the two checks run in order,
     * and only when both pass is loading set and a request sent.
     */
    method Submit()
      requires !loading
      modifies this`error, this`loading, this`requests
      ensures var check := Validate(email, password);
        && (check.Reject? ==> error == Str(check.message) && !loading && requests == old(requests))
        && (check.Proceed? ==>
              error == Str("") && loading
              && requests == old(requests) + [LoginRequest(Endpoint(loginType), email, password)])
    {
      error := Str("");
      var check := Validate(email, password);
      if check.Reject? {
        error := Str(check.message);
        return;
      }
      loading := true;
      requests := requests + [LoginRequest(Endpoint(loginType), email, password)];
    }

    /**
     * The reply to the request in flight. Reading a property of a `null`
     * body throws, so it ends like a failed request. Storage changes only
     * on an ok reply; loading is false on every path.
     */
    method Receive(response: LoginResponse)
      requires loading
      modifies this`error, this`loading, this`storage, this`navigations
      ensures !loading
      ensures response.Thrown? || (response.Reply? && Nullish(response.body)) ==>
        error == Str(NetworkError) && storage == old(storage) && navigations == old(navigations)
      ensures response.Reply? && !Nullish(response.body) && !response.ok ==>
        error == Or(Get(response.body, "error"), Str(DefaultLoginError))
        && storage == old(storage) && navigations == old(navigations)
      ensures response.Reply? && !Nullish(response.body) && response.ok ==>
        error == old(error)
        && storage == old(storage)[TokenKey := ToJsString(Get(response.body, "token"))][ProfileKey := ProfileText(response.body)]
        && navigations == old(navigations) + [AfterLoginPath]
    {
      match response {
        case Thrown =>
          error := Str(NetworkError);
          loading := false;
        case Reply(ok, body) =>
          if Nullish(body) {
            error := Str(NetworkError);
            loading := false;
          } else if !ok {
            error := Or(Get(body, "error"), Str(DefaultLoginError));
            loading := false;
            return;
          } else {
            storage := storage[TokenKey := ToJsString(Get(body, "token"))];
            storage := storage[ProfileKey := ProfileText(body)];
            navigations := navigations + [AfterLoginPath];
          }
      }
      loading := false;
    }
  }

  /** A rejected login shows the server's message, or the default one when it sent none. */
  lemma RejectedLoginMessage(body: JsValue)
    requires !Nullish(body)
    ensures Get(body, "error") == Undefined ==> Or(Get(body, "error"), Str(DefaultLoginError)) == Str(DefaultLoginError)
    ensures Truthy(Get(body, "error")) ==> Or(Get(body, "error"), Str(DefaultLoginError)) == Get(body, "error")
    ensures Truthy(Or(Get(body, "error"), Str(DefaultLoginError)))
  {
  }
}

/** `AuthEndpoint` (Service/Auth/AuthEndpoint.swift): sign-up and sign-in,
    which carry the credentials in an HTTP Basic authorization header
    (section 2 of RFC 7617). */
module AuthEndpoints {
  import opened Wrappers
  import opened Text
  import opened Dto
  import Base64

  datatype AuthEndpoint =
    | Register(email: string, password: string)
    | Login(email: string, password: string)

  function Path(e: AuthEndpoint): (r: string)
    ensures e.Register? <==> r == "/auth/register"
    ensures e.Login? <==> r == "/auth/login"
  {
    match e
    case Register(_, _) => "/auth/register"
    case Login(_, _) => "/auth/login"
  }

  function Method(e: AuthEndpoint): (r: HttpMethod)
    ensures r == Post
  {
    match e
    case Register(_, _) | Login(_, _) => Post
  }

  /** The credentials token: `"<email>:<password>".toBase64()`. */
  function Credentials(email: string, password: string): string {
    Base64.StringToBase64(email + ":" + password)
  }

  /** `headers`: exactly one `Authorization: Basic <token>` entry. */
  function Headers(e: AuthEndpoint): (r: Option<Headers>)
    ensures r.Some? && r.value.Keys == {"Authorization"}
    ensures r.value["Authorization"] == "Basic " + Credentials(e.email, e.password)
  {
    match e
    case Register(email, password) =>
      Some(map["Authorization" := "Basic " + Credentials(email, password)])
    case Login(email, password) =>
      Some(map["Authorization" := "Basic " + Credentials(email, password)])
  }

  /** `body`: the credentials travel only in the header. */
  function Body(e: AuthEndpoint): Option<Body> {
    None
  }

  lemma BodyAbsent(e: AuthEndpoint)
    ensures Body(e).None?
  {
  }

  /** Sign-up and sign-in with the same credentials send the same header. */
  lemma RegisterAndLoginShareHeaders(email: string, password: string)
    ensures Headers(Register(email, password)) == Headers(Login(email, password))
  {
  }

  /** The token decodes to the user-id and password joined by one colon, as
      section 2 of RFC 7617 prescribes; when the email holds no colon, the
      first colon splits the decoded text back into email and password. */
  lemma CredentialsDecode(email: string, password: string)
    ensures var bytes := Base64.Decode(Credentials(email, password));
      && bytes.Some?
      && Base64.Utf8Decode(bytes.value) == Some(email + ":" + password)
    ensures ':' !in email ==>
      var text := email + ":" + password;
      FieldBefore(text, ':') == email && text[|email| + 1..] == password
  {
    if ':' !in email {
      var text := email + ":" + password;
      assert text == email + (":" + password);
      FieldBeforeNoSep(email, ":" + password, ':');
    }
  }
}

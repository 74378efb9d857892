/** The part of an HTTP response the handlers build: status, redirect target, body and cookies. */
module Http {
  import opened Wrappers

  /** The two statuses the application answers with: 200 OK and 302 Found. */
  datatype Status = Ok | Found

  /** What the body is; the markup itself is presentation. */
  datatype Body =
    | HomePage
    | EnabledPage
    | RedirectNotice(target: string)
    | ReposTemplate(repos: seq<string>)

  /** A response under construction; `cookies` are the `Set-Cookie`s, keyed by name. */
  class Response {
    var status: Status
    var location: Option<string>
    var body: Body
    var cookies: map<string, string>

    /** `Response::with((status, body))`: no `Location`, no cookies. */
    constructor (status: Status, body: Body)
      ensures this.status == status && this.body == body
      ensures location == None && cookies == map[]
    {
      this.status := status;
      this.body := body;
      location := None;
      cookies := map[];
    }

    /** `redirect_response(uri)`: a 302 Found to `uri` that says so in its body. */
    constructor Redirect(uri: string)
      ensures IsRedirectTo(uri) && cookies == map[]
    {
      status := Found;
      location := Some(uri);
      body := RedirectNotice(uri);
      cookies := map[];
    }

    ghost predicate IsRedirectTo(uri: string)
      reads this
    {
      status == Found && location == Some(uri) && body == RedirectNotice(uri)
    }

    /** `response.set_cookie(Cookie::new(name, value))`: replaces any cookie of that name. */
    method SetCookie(name: string, value: string)
      modifies this
      ensures cookies == old(cookies)[name := value]
      ensures status == old(status) && location == old(location) && body == old(body)
    {
      cookies := cookies[name := value];
    }
  }
}

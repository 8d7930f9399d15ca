/** The parts of an Express request/response pair that the middleware reads
    and writes. */
module Http {
  import opened Js
  import opened UserModel

  class Exchange {
    /** `req.headers.authorization` */
    var authorization: Option<string>
    /** `req.cookies.jwt` */
    var cookieJwt: Option<string>
    /** `req.params.id` */
    var paramsId: Option<string>
    /** `req.body` */
    var body: JsObject
    /** `req.user`, set by `protect` */
    var reqUser: Option<UserRecord>
    /** `res.locals.user`, set by `protect` and `isLoggedIn` */
    var localsUser: Option<UserRecord>

    /** A request as it enters the router: nobody is attached to it yet. */
    constructor(authorization: Option<string>, cookieJwt: Option<string>, paramsId: Option<string>, body: JsObject)
      ensures this.authorization == authorization && this.cookieJwt == cookieJwt
      ensures this.paramsId == paramsId && this.body == body
      ensures reqUser == None && localsUser == None
    {
      this.authorization := authorization;
      this.cookieJwt := cookieJwt;
      this.paramsId := paramsId;
      this.body := body;
      reqUser := None;
      localsUser := None;
    }
  }
}

/** The two authentication mechanisms a client can attach to its session. */
module Authentication {

  datatype Auth =
      /** `BasicAuth(username, password)`: the pair becomes the session's `auth`. */
    | BasicAuth(username: string, password: string)
      /** `OAuth2(token)`: the session sends `Authorization: Bearer <token>`. */
    | OAuth2(token: string)
}

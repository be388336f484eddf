/*
 * What a request handler sends back through the web server.
 */
module Replies {

  datatype Reply =
    | Text(code: int, body: string)             // server.send(code, "text/plain", body)
    | Redirect(location: string, body: string)  // a Location header, then a 302 with body
    | AuthRequired                              // requestAuthentication(): a 401 Basic-Auth challenge
}

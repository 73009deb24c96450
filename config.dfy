/** The port layout of the overlay. The two base ports come from a
    configuration file that is not part of this model, so they are a
    parameter of every operation that needs them. */
module Config {

  /** Relay `n` listens on `baseOnionRouterPort + n`, user `u` on
      `baseUserPort + u`. */
  datatype Ports = Ports(baseOnionRouterPort: int, baseUserPort: int)

  /** The largest port a `http://localhost:<port>/...` URL accepts; a larger
      one (or a negative one, or NaN) makes the URL invalid and the request
      throws before anything is sent. */
  const MAX_PORT: int := 65535

  /** A port a URL can carry. */
  predicate ValidPort(port: int)
  {
    0 <= port <= MAX_PORT
  }

  /** A POST of `{ message }` to `http://localhost:<port>/message`. */
  datatype Post = Post(port: int, message: string)
}

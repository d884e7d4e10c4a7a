/**
 The browser facilities the page relies on but does not implement: WHATWG URL
 parsing, `parseFloat`, `decodeURIComponent` and `JSON.parse`. Each is an oracle,
 a total function whose failure is an explicit `None` or `Failure`.
 */
module Web {
  import opened Wrappers

  /** The parts of a parsed `URL` object the page reads. */
  datatype Url = Url(href: string, hostname: string)

  /** A value produced by `JSON.parse`. */
  datatype Json =
    | Null
    | Bool(b: bool)
    | Number(n: real)
    | Str(s: string)
    | Array(items: seq<Json>)
    | Object(members: seq<(string, Json)>)

  /**
   The oracles. `parseFloat` yields `None` where JavaScript yields NaN;
   `parseUrl` yields `None` where `new URL` throws; `decodeUri` and
   `parseJson` report a thrown exception as `Failure` / `None`.
   */
  datatype Oracles = Oracles(
    parseFloat: string -> Option<real>,
    parseUrl: string -> Option<Url>,
    decodeUri: string -> Result<string>,
    parseJson: string -> Option<Json>
  )
}

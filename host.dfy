/**
 * The library calls index.js makes and whose behaviour is not part of this
 * model. Each is a function the caller supplies, so every property proved
 * about the helpers holds whatever these functions compute.
 */
module Host {
  import opened JsValues

  datatype Host = Host(
    /** `html-tag`: `toHtml(name, attributesOrText, text)`; a call with two
        arguments passes `Undefined` as the third. */
    toHtml: (JsValue, JsValue, JsValue) -> string,
    /** Node's `url.resolve(from, to)`. */
    resolve: (string, string) -> string,
    /** Node's `path.relative(from, to)` on two strings. */
    relative: (string, string) -> string,
    /** Node's `path.join(a, b)` on two strings. */
    join: (string, string) -> string,
    /** `moment(date).format('YYYY-MM-DD')`. */
    formatDate: JsValue -> string
  )

  /** The two-argument `toHtml(name, text)` call. */
  function Element(h: Host, name: string, text: JsValue): string {
    h.toHtml(Str(name), text, Undefined)
  }
}

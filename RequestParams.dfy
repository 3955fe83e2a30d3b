/** Query-string parameters of an HTTP request, as the two query helpers receive them. */
module RequestParams {
  import opened Wrappers

  /**
   * JavaScript truthiness of a query-string parameter: it is truthy when it was given
   * (not `undefined`) and is not the empty string.
   */
  predicate Present(p: Option<string>) { p.Some? && p.value != "" }
}

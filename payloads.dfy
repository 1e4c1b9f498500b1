/** The broadcast payloads the main page receives: a feature update from the
    content agent and a metrics update from the quality scorer. */
module Payloads {
  import opened JsValues

  /** The body of a `feature-update` broadcast. Every field may be missing. */
  datatype FeaturePayload = FeaturePayload(
    content: Option<string>,
    text: Option<string>,
    userMessage: Option<string>,
    comment: Option<string>)

  /** The `overall` field of a metrics payload: missing, `null`, or a number. */
  datatype Overall = Undefined | Null | Score(value: real)

  /** The body of a `metrics-update` broadcast: `overall` plus further named metrics.
      The whole body is what gets stored as a revision's estimation. */
  datatype Metrics = Metrics(overall: Overall, details: map<string, string>)

  /** The new document an update carries (`content || text`), or None when the
      update has neither a truthy `content` nor a truthy `text` and is ignored. */
  function FeatureText(p: Option<FeaturePayload>): (r: Option<string>)
    ensures r.Some? <==> p.Some? && (Truthy(p.value.content) || Truthy(p.value.text))
    ensures r.Some? ==> r.value != ""
    ensures r.Some? && Truthy(p.value.content) ==> r == p.value.content
    ensures r.Some? && !Truthy(p.value.content) ==> r == p.value.text
  {
    match p
    case None => None
    case Some(body) =>
      if Truthy(body.content) then body.content
      else if Truthy(body.text) then body.text
      else None
  }

  /** A metrics update is acted upon exactly when its body has an `overall`
      field that is not `undefined` (`null` and 0 are accepted). */
  predicate HasOverall(p: Option<Metrics>) {
    p.Some? && !p.value.overall.Undefined?
  }

  /** The overall score shown after a metrics update: the number, or none for `null`. */
  function ScoreOf(o: Overall): (r: Option<real>)
    requires !o.Undefined?
    ensures r.Some? <==> o.Score?
    ensures r.Some? ==> r.value == o.value
  {
    match o
    case Null => None
    case Score(v) => Some(v)
  }
}

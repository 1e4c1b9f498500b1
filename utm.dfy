/** Capture of marketing parameters on the sign-in page: a fixed list of
    query parameters is copied into a dictionary when present and non-empty,
    `landing_page` falls back to the page's host name, and the dictionary is
    written to session storage. */
module UtmCapture {
  import opened JsValues

  /** The query parameters the page captures. */
  datatype Param = UtmSource | UtmMedium | UtmCampaign | UtmContent | Fbclid | LandingPage

  /** The name each parameter has in the query string and in storage. */
  function Name(p: Param): string {
    match p
    case UtmSource => "utm_source"
    case UtmMedium => "utm_medium"
    case UtmCampaign => "utm_campaign"
    case UtmContent => "utm_content"
    case Fbclid => "fbclid"
    case LandingPage => "landing_page"
  }

  /** The parameters captured, in the order they are looked up. */
  const Captured: seq<Param> := [UtmSource, UtmMedium, UtmCampaign, UtmContent, Fbclid, LandingPage]

  /** Where a parameter stands in the lookup order. */
  function Position(p: Param): (n: nat)
    ensures n < |Captured| && Captured[n] == p
  {
    match p
    case UtmSource => 0
    case UtmMedium => 1
    case UtmCampaign => 2
    case UtmContent => 3
    case Fbclid => 4
    case LandingPage => 5
  }

  /** A query string as its decoded name/value pairs, in order. */
  type Query = seq<(string, string)>

  /** The position of the first pair with that name, if any. */
  function FirstIndex(query: Query, name: string): (r: Option<nat>)
    ensures r.Some? ==> r.value < |query| && query[r.value].0 == name
    ensures r.Some? ==> forall j :: 0 <= j < r.value ==> query[j].0 != name
    ensures r.None? <==> forall j :: 0 <= j < |query| ==> query[j].0 != name
  {
    if |query| == 0 then None
    else if query[0].0 == name then Some(0)
    else match FirstIndex(query[1..], name)
      case None => None
      case Some(i) => Some(i + 1)
  }

  /** `URLSearchParams.get`: the value of the first pair with that name, or
      none when no pair has that name. */
  function Get(query: Query, name: string): Option<string> {
    match FirstIndex(query, name)
    case None => None
    case Some(i) => Some(query[i].1)
  }

  /** The mount effect's capture. Each of the six parameters other than
      `landing_page` is present exactly when the query gives it a non-empty
      value, and then holds that value; `landing_page` is always present,
      taken from the query when non-empty and otherwise the host name.
      Since the dictionary is never empty it is always stored. */
  method CaptureUtm(query: Query, hostname: string)
    returns (params: map<Param, string>, stored: Option<map<Param, string>>)
    ensures forall p :: p != LandingPage ==> (p in params <==> Truthy(Get(query, Name(p))))
    ensures forall p :: p in params && p != LandingPage ==> Get(query, Name(p)) == Some(params[p]) && params[p] != ""
    ensures LandingPage in params && params[LandingPage] == Or(Get(query, Name(LandingPage)), hostname)
    ensures stored == Some(params)
  {
    params := map[];
    var i := 0;
    while i < |Captured|
      invariant 0 <= i <= |Captured|
      invariant forall p :: p in params ==> Position(p) < i
      invariant forall p :: Position(p) < i ==> (p in params <==> Truthy(Get(query, Name(p))))
      invariant forall p :: p in params ==> Get(query, Name(p)) == Some(params[p]) && params[p] != ""
    {
      var param := Captured[i];
      assert Position(param) == i;
      var value := Get(query, Name(param));
      if Truthy(value) {
        params := params[param := value.value];
      }
      i := i + 1;
    }
    var landing := if LandingPage in params then Some(params[LandingPage]) else None;
    if !Truthy(landing) {
      params := params[LandingPage := hostname];
    }
    if |params| > 0 {
      stored := Some(params);
    } else {
      stored := None;
    }
  }
}

/**
 * The request filter of middleware.js: every request whose detected country
 * is present and is not Indonesia ("ID") is answered with a fixed 403 page;
 * every other request passes through to the site.
 */
module GeoGate {
  import opened Wrappers

  /** The path pattern the filter is registered for (`config.matcher`); nothing in the model refers to it. */
  const Matcher: string := "/:path*"

  /** The one country that is let through. */
  const AllowedCountry: string := "ID"

  /** `request.geo`: absent on hosts without geolocation (e.g. localhost). */
  datatype Geo = Geo(country: Option<string>)
  datatype Request = Request(geo: Option<Geo>)

  datatype Response = Response(status: nat, contentType: string, body: string)

  /** The HTML document of the denial page. */
  const DeniedBody: string :=
    "\n      <html>\n        <head><title>Access Denied</title></head>\n"
    + "        <body style=\"display:flex;justify-content:center;align-items:center;height:100vh;"
    + "background:#050510;color:white;font-family:sans-serif;\">\n"
    + "          <div style=\"text-align:center\">\n"
    + "            <h1>\U{26D4} Access Restricted</h1>\n"
    + "            <p>This experience is only available in Indonesia.</p>\n"
    + "          </div>\n        </body>\n      </html>\n    "

  const Denied: Response := Response(403, "text/html", DeniedBody)

  /** `request.geo?.country`: undefined when either link is missing. */
  function Country(request: Request): (r: Option<string>)
    ensures r.Some? <==> request.geo.Some? && request.geo.value.country.Some?
    ensures r.Some? ==> r.value == request.geo.value.country.value
  {
    match request.geo
    case None => None
    case Some(g) => g.country
  }

  /** A JavaScript string is truthy exactly when it is not empty. */
  predicate Truthy(s: string)
  {
    s != ""
  }

  /**
   * The filter itself. `None` is the function returning nothing, which lets
   * the request through; `Some(r)` is the response sent instead.
   */
  function Middleware(request: Request): (r: Option<Response>)
    ensures r.None? <==> (Country(request).None? || Country(request).value in {"", AllowedCountry})
    ensures r.Some? ==> r.value == Denied
  {
    var country := Country(request);
    if country.Some? && Truthy(country.value) && country.value != AllowedCountry then
      Some(Denied)
    else
      None
  }

  /** Requests without a country (no geo record, or a record without one) pass. */
  lemma MissingCountryPasses(request: Request)
    requires request.geo.None? || request.geo.value.country.None?
    ensures Middleware(request).None?
  {
  }

  /** Indonesia and the (falsy) empty string pass. */
  lemma AllowedCountriesPass(geo: Geo)
    requires geo.country == Some(AllowedCountry) || geo.country == Some("")
    ensures Middleware(Request(Some(geo))).None?
  {
  }

  /** Any other non-empty country gets the 403 HTML page. */
  lemma OtherCountriesDenied(c: string)
    requires c != "" && c != AllowedCountry
    ensures var r := Middleware(Request(Some(Geo(Some(c)))));
      r.Some? && r.value.status == 403 && r.value.contentType == "text/html"
  {
  }

  /** The denial does not depend on which country was detected. */
  lemma DenialIndependentOfCountry(a: Request, b: Request)
    requires Middleware(a).Some? && Middleware(b).Some?
    ensures Middleware(a) == Middleware(b)
  {
  }

  /** Three sample requests: "ID" passes, "US" is denied, no geo passes. */
  lemma SampleRequests()
    ensures Middleware(Request(Some(Geo(Some("ID"))))) == None
    ensures Middleware(Request(Some(Geo(Some("US"))))) == Some(Denied)
    ensures Middleware(Request(None)) == None
  {
  }
}

/**
 The request side of the edge worker: the pathname of an incoming request is
 normalised (one trailing slash removed, the empty path mapped to the root) and
 then resolved to a page. Exactly one path serves the product page; every other
 path is answered with the not-found section and a link back to the product page.
 */
module Routing {

  const ProductPath := "/himalayan-salt"
  const ProductTitle := "Himalayan Salt - Primelink International"
  const NotFoundTitle := "404 - Page Not Found"
  const NotFoundMessage := "The page you are looking for does not exist."
  const ReturnLinkText := "Return to Himalayan Salt"

  /** The content fragment placed inside the page template. */
  datatype Content =
    | ProductPage
      // the static product markup, whose text is not modelled
    | NotFoundSection(heading: string, message: string, linkHref: string, linkText: string)

  /** The title and content handed to the page template. */
  datatype Page = Page(title: string, content: Content)

  predicate EndsWithSlash(s: string) {
    |s| > 0 && s[|s| - 1] == '/'
  }

  /** `page.replace(/\/$/, '') || '/'`: drop one trailing slash, and map an empty result to the root. */
  function Normalize(path: string): (r: string)
    ensures r != ""
    ensures path == "" || path == "/" ==> r == "/"
    ensures |path| >= 2 && EndsWithSlash(path) ==> r + "/" == path
    ensures !EndsWithSlash(path) && path != "" ==> r == path
  {
    var stripped := if EndsWithSlash(path) then path[..|path| - 1] else path;
    if stripped == "" then "/" else stripped
  }

  /** The dispatch on the normalised path: the product page or the not-found section. */
  function Resolve(page: string): (r: Page)
    ensures r.title == ProductTitle <==> page == ProductPath
    ensures r.content.ProductPage? <==> page == ProductPath
    ensures page != ProductPath ==>
      r.title == NotFoundTitle && r.content.NotFoundSection? && r.content.linkHref == ProductPath
  {
    if page == ProductPath then
      Page(ProductTitle, ProductPage)
    else
      Page(NotFoundTitle, NotFoundSection(NotFoundTitle, NotFoundMessage, ProductPath, ReturnLinkText))
  }

  /** The page chosen for a request whose URL has the given pathname. */
  function HandleRequest(pathname: string): (r: Page)
    ensures r.title == ProductTitle || r.title == NotFoundTitle
  {
    Resolve(Normalize(pathname))
  }

  /** Exactly two pathnames reach the product page: with and without one trailing slash. */
  lemma ProductPathnames(pathname: string)
    ensures HandleRequest(pathname).content.ProductPage? <==>
            pathname == ProductPath || pathname == ProductPath + "/"
  {
  }

  /** Every other pathname gets the not-found title and a link back to the product page. */
  lemma OtherPathnamesNotFound(pathname: string)
    requires pathname != ProductPath && pathname != ProductPath + "/"
    ensures HandleRequest(pathname).title == NotFoundTitle
    ensures HandleRequest(pathname).content.NotFoundSection?
    ensures HandleRequest(pathname).content.linkHref == ProductPath
  {
  }

  /** Normalising a second time changes nothing exactly when the first result no longer ends with
      a slash, or is the root itself: only one trailing slash is removed per call. */
  lemma NormalizeIdempotentIff(path: string)
    ensures Normalize(Normalize(path)) == Normalize(path) <==>
            (Normalize(path) == "/" || !EndsWithSlash(Normalize(path)))
  {
  }

  /** Of a doubled trailing slash, normalisation removes one and keeps the other. */
  lemma DoubleSlashKeepsOne(path: string)
    requires |path| >= 2 && path[|path| - 2..] == "//"
    ensures EndsWithSlash(Normalize(path)) && Normalize(path) + "/" == path
  {
  }

  /** An example of the above: with a doubled trailing slash the product path is not the product page. */
  lemma DoubleSlashNotFound()
    ensures Normalize(ProductPath + "//") == ProductPath + "/"
    ensures HandleRequest(ProductPath + "//").title == NotFoundTitle
  {
  }
}

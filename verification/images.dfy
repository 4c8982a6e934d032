/**
 * Product image URL resolution shared by the product list and the product
 * detail screens: absolute URLs are used as they are, relative paths are
 * served from the storefront host, and the logo stands in for a missing or
 * broken image.
 */
module Images {

  const Host: string := "https://genosys.ae"
  const LogoUrl: string := "https://genosys.ae/images/genosys-logo.png"

  /** `path.startsWith('http')`. */
  predicate IsAbsolute(path: string) {
    "http" <= path
  }

  /** An absolute path is kept; any other path is appended to the host. */
  function ResolvePath(image: string): (url: string)
    ensures IsAbsolute(url)
    ensures IsAbsolute(image) ==> url == image
    ensures !IsAbsolute(image) ==> Host <= url && url[|Host|..] == image
  {
    if IsAbsolute(image) then image else Host + image
  }

  /** Resolving an already resolved URL changes nothing. */
  lemma ResolveIdempotent(image: string)
    ensures ResolvePath(ResolvePath(image)) == ResolvePath(image)
  {
  }
}

/**
 * The five functions of the storefront and the admin screens that turn an image
 * path stored by the backend ("/uploads/producto_7_....png") into a URL the
 * browser can load, and what they have in common.
 */
module ImageUrls {
  import opened Wrappers
  import opened Text

  /** Asset shown when a product has no image. */
  const Placeholder: string := "assets/placeholders/product-placeholder.png"

  /** Asset the order pages show when an item has no image. */
  const OrderPlaceholder: string := "/assets/placeholder.png"

  /** The backend's address, without a trailing slash. */
  const Backend: string := "http://" + "localhost:8080/REST-Ecommerce-Hardware"

  /** The backend address is an http URL. */
  lemma BackendIsHttp()
    ensures StartsWith(Backend, "http://") && StartsWith(Backend, "http")
  {
    assert Backend[..7] == "http://";
    assert "http://"[..4] == "http";
  }

  /**
   * `getFullImageUrl` of the product editor: an empty path stays empty, an
   * absolute http(s) URL is kept, anything else is placed under the backend:
   * a path with a leading '/' directly after it (that '/' is the separator), any
   * other path after one added '/'.
   */
  function EditorPreviewUrl(path: string): (r: string)
    ensures path == "" ==> r == ""
    ensures StartsWith(path, "http://") || StartsWith(path, "https://") ==> r == path
    ensures StartsWith(path, "/") ==> r == Backend + path
    ensures path != "" && !StartsWith(path, "/") && !StartsWith(path, "http://") && !StartsWith(path, "https://") ==>
      r == Backend + "/" + path
  {
    if path == "" then ""
    else if StartsWith(path, "http://") || StartsWith(path, "https://") then
      assert path[0] == 'h';
      path
    else
      var rel := if StartsWith(path, "/") then path[1..] else path;
      assert StartsWith(path, "/") ==> path == "/" + rel;
      Backend + "/" + rel
  }

  /** A non-empty preview URL is absolute, so normalising it again changes nothing. */
  lemma EditorPreviewUrlIdempotent(path: string)
    ensures EditorPreviewUrl(EditorPreviewUrl(path)) == EditorPreviewUrl(path)
  {
    if path != "" && !StartsWith(path, "http://") && !StartsWith(path, "https://") {
      var rel := if StartsWith(path, "/") then path[1..] else path;
      BackendIsHttp();
      StartsWithAppend(Backend, "/" + rel, "http://");
      assert Backend + "/" + rel == Backend + ("/" + rel);
    }
  }

  /**
   * `getImageUrl` of the admin product service: the placeholder for an empty
   * path, any path beginning with "http" as is, otherwise the configured API
   * address `apiUrl` (a build-time setting) followed directly by the path.
   */
  function AdminImageUrl(apiUrl: string, path: string): (r: string)
    ensures path == "" ==> r == Placeholder
    ensures StartsWith(path, "http") ==> r == path
    ensures path != "" && !StartsWith(path, "http") ==> StartsWith(r, apiUrl) && r[|apiUrl|..] == path
  {
    if path == "" then Placeholder
    else if StartsWith(path, "http") then path
    else apiUrl + path
  }

  /** With an http(s) API address, normalising an admin URL twice is normalising it once. */
  lemma AdminImageUrlIdempotent(apiUrl: string, path: string)
    requires StartsWith(apiUrl, "http")
    requires path != ""
    ensures AdminImageUrl(apiUrl, AdminImageUrl(apiUrl, path)) == AdminImageUrl(apiUrl, path)
  {
    if !StartsWith(path, "http") {
      var r := apiUrl + path;
      assert r[..4] == apiUrl[..4];
    }
  }

  /**
   * `getImageUrl` of the catalog's product service: the placeholder for an
   * empty path, any path beginning with "http" as is, otherwise the backend
   * address followed directly by the path, with no separator added.
   */
  function CatalogImageUrl(path: string): (r: string)
    ensures path == "" ==> r == Placeholder
    ensures StartsWith(path, "http") ==> r == path
    ensures path != "" && !StartsWith(path, "http") ==> StartsWith(r, Backend) && r[|Backend|..] == path
  {
    if path == "" then Placeholder
    else if StartsWith(path, "http") then path
    else Backend + path
  }

  /** The catalog normaliser's non-empty results begin with "http", so it is idempotent on them. */
  lemma CatalogImageUrlIdempotent(path: string)
    requires path != ""
    ensures CatalogImageUrl(CatalogImageUrl(path)) == CatalogImageUrl(path)
  {
    if !StartsWith(path, "http") {
      BackendIsHttp();
      StartsWithAppend(Backend, path, "http");
    }
  }

  /**
   * `getImageUrl` of the product image service: like the catalog's, but only
   * "http://" and "https://" count as absolute.
   */
  function GalleryImageUrl(url: string): (r: string)
    ensures url == "" ==> r == Placeholder
    ensures StartsWith(url, "http://") || StartsWith(url, "https://") ==> r == url
    ensures url != "" && !StartsWith(url, "http://") && !StartsWith(url, "https://") ==>
      StartsWith(r, Backend) && r[|Backend|..] == url
  {
    if url == "" then Placeholder
    else if StartsWith(url, "http://") || StartsWith(url, "https://") then url
    else Backend + url
  }

  /** The gallery normaliser's non-empty results begin with "http://", so it is idempotent on them. */
  lemma GalleryImageUrlIdempotent(url: string)
    requires url != ""
    ensures GalleryImageUrl(GalleryImageUrl(url)) == GalleryImageUrl(url)
  {
    if !StartsWith(url, "http://") && !StartsWith(url, "https://") {
      BackendIsHttp();
      StartsWithAppend(Backend, url, "http://");
    }
  }

  /**
   * A path that begins with "http" without being an http(s) URL is kept by the
   * catalog normaliser but placed under the backend by the gallery normaliser.
   */
  lemma CatalogAndGalleryDisagreeOnBareHttp()
    ensures CatalogImageUrl("httpfoo") == "httpfoo"
    ensures GalleryImageUrl("httpfoo") == Backend + "httpfoo"
  {
    assert StartsWith("httpfoo", "http");
    assert "httpfoo"[4] == 'f';
    assert !StartsWith("httpfoo", "http://");
    assert !StartsWith("httpfoo", "https://");
  }

  /**
   * For the paths the backend stores (beginning with '/'), the editor, the
   * catalog and the gallery all produce the same absolute URL.
   */
  lemma NormalisersAgreeOnStoredPaths(path: string)
    requires StartsWith(path, "/")
    ensures EditorPreviewUrl(path) == CatalogImageUrl(path) == GalleryImageUrl(path)
  {
    assert !StartsWith(path, "http");
    assert !StartsWith(path, "http://") && !StartsWith(path, "https://");
    assert path == "/" + path[1..];
    assert Backend + "/" + path[1..] == Backend + path;
  }

  /**
   * `getProductImage` of both order pages: their own placeholder for a missing
   * or empty path, any path beginning with "http" as is, otherwise the backend
   * address followed directly by the path.
   */
  function OrderImageUrl(path: Option<string>): (r: string)
    ensures path.None? || path == Some("") ==> r == OrderPlaceholder
    ensures path.Some? && StartsWith(path.value, "http") ==> r == path.value
    ensures path.Some? && path.value != "" && !StartsWith(path.value, "http") ==>
      StartsWith(r, Backend) && r[|Backend|..] == path.value
  {
    if path.None? || path.value == "" then OrderPlaceholder
    else if StartsWith(path.value, "http") then path.value
    else Backend + path.value
  }

  /** The order pages and the catalog agree on every non-empty path; only the placeholder differs. */
  lemma OrderAndCatalogAgree(path: string)
    ensures path != "" ==> OrderImageUrl(Some(path)) == CatalogImageUrl(path)
    ensures OrderImageUrl(Some("")) != CatalogImageUrl("")
  {
    assert OrderPlaceholder[0] != Placeholder[0];
  }
}

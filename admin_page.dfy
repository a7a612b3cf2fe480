/** The card gallery of the admin page: each card's thumbnail is the first image it has,
    resolved to a loadable URL. */
module AdminPage {
  import opened Wrappers
  import opened Text
  import opened Card
  import opened ImageRef

  /** `getImageUrl(url)`, step by step: early returns for the empty reference, inline data
      and absolute URLs, then the trimmed `path` is rewritten in place. */
  method GetImageUrl(url: Option<string>) returns (r: Option<string>)
    ensures r == Resolve(url)
  {
    if !Truthy(url) {
      return None;
    }
    var u := url.value;
    if StartsWith(u, "data:image/") {
      return url;
    }
    if StartsWith(u, "http://") || StartsWith(u, "https://") {
      return url;
    }
    var path := JsTrim(u);
    if StartsWith(path, "/data/upload/") || StartsWith(path, "/data/upload") {
      path := Collapse(path);
      return Some(Host + path);
    }
    if StartsWith(path, "/upload/") || StartsWith(path, "/upload") {
      path := "/data" + path;
      path := Collapse(path);
      return Some(Host + path);
    }
    if !StartsWith(path, "/") {
      path := "/" + path;
    }
    path := "/data/upload" + path;
    path := Collapse(path);
    return Some(Host + path);
  }

  /** The thumbnail of a card in the grid. */
  method Thumbnail(card: StoredCard) returns (url: Option<string>)
    ensures url == Resolve(DisplayedSource(card))
  {
    url := GetImageUrl(Or(Or(card.generatedImageUrl, card.characterImageUrl), card.backgroundImageUrl));
  }
}

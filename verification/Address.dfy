/** Which addresses a link may have (`safeUrl`). */
module Address {
  import opened Text

  /** Whether `s` starts with the lower-case ASCII `prefix`, ignoring case. */
  predicate StartsWithFolded(s: string, prefix: string) {
    |prefix| <= |s| && forall i | 0 <= i < |prefix| :: LowerAscii(s[i]) == prefix[i]
  }

  function SafeUrl(value: string): Option<string> {
    var url := Trim(value);
    if url == "" then None
    else if StartsWithFolded(url, "javascript:") || StartsWithFolded(url, "vbscript:")
         || StartsWithFolded(url, "data:") || StartsWithFolded(url, "file:") then None
    else if StartsWithFolded(url, "http:") || StartsWithFolded(url, "https:")
         || StartsWithFolded(url, "mailto:") || StartsWithFolded(url, "tel:") then Some(url)
    else if "/" <= url || "./" <= url || "../" <= url || "#" <= url then Some(url)
    else None
  }

  /** An address that begins with one of four schemes, in any case, or with a relative form. */
  predicate Allowed(url: string) {
    || StartsWithFolded(url, "http:") || StartsWithFolded(url, "https:")
    || StartsWithFolded(url, "mailto:") || StartsWithFolded(url, "tel:")
    || "/" <= url || "./" <= url || "../" <= url || "#" <= url
  }

  lemma FirstFolded(url: string, prefix: string)
    requires prefix != "" && StartsWithFolded(url, prefix)
    ensures url != "" && LowerAscii(url[0]) == prefix[0]
  {
  }

  /** The list of refused schemes refuses nothing that the list of allowed ones would let through. */
  lemma SafeUrlIsAllowed(value: string)
    ensures SafeUrl(value) == if Allowed(Trim(value)) then Some(Trim(value)) else None
  {
    hide Trim, StartsWithFolded;
    var url := Trim(value);
    if StartsWithFolded(url, "javascript:") { FirstFolded(url, "javascript:"); }
    if StartsWithFolded(url, "vbscript:") { FirstFolded(url, "vbscript:"); }
    if StartsWithFolded(url, "data:") { FirstFolded(url, "data:"); }
    if StartsWithFolded(url, "file:") { FirstFolded(url, "file:"); }
    if StartsWithFolded(url, "http:") { FirstFolded(url, "http:"); }
    if StartsWithFolded(url, "https:") { FirstFolded(url, "https:"); }
    if StartsWithFolded(url, "mailto:") { FirstFolded(url, "mailto:"); }
    if StartsWithFolded(url, "tel:") { FirstFolded(url, "tel:"); }
  }
}

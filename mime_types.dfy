/**
 * The content-type rule both web servers apply to a requested file: the
 * `download` argument forces a binary download; otherwise the file-name
 * suffixes are tried in a fixed order and the first that matches decides;
 * with no match the file is served as plain text. Each web server writes the
 * rule out as an if-chain (see LightkitWeb and RgbWeb); this module gives the
 * rule as a table, so both chains can be proved against it.
 */
module MimeTypes {
  import opened Wrappers
  import opened CStrings

  const OCTET_STREAM: string := "application/octet-stream"
  const TEXT_PLAIN: string := "text/plain"

  /** The suffixes, in the order the if-chains test them, with their content types. */
  const SuffixTable: seq<(string, string)> := [
    (".htm", "text/html"),
    (".html", "text/html"),
    (".css", "text/css"),
    (".js", "application/javascript"),
    (".png", "image/png"),
    (".gif", "image/gif"),
    (".jpg", "image/jpeg"),
    (".ico", "image/x-icon"),
    (".xml", "text/xml"),
    (".pdf", "application/x-pdf"),
    (".zip", "application/x-zip"),
    (".gz", "application/x-gzip")
  ]

  /** The type of the first entry of the table, from index `k` on, whose suffix ends `name`. */
  function FirstMatchFrom(name: string, k: nat): (r: Option<string>)
    requires k <= |SuffixTable|
    ensures r.None? <==> forall i :: k <= i < |SuffixTable| ==> !EndsWith(name, SuffixTable[i].0)
    ensures r.Some? ==> exists i :: k <= i < |SuffixTable| && EndsWith(name, SuffixTable[i].0) && r.value == SuffixTable[i].1
                          && forall j :: k <= j < i ==> !EndsWith(name, SuffixTable[j].0)
    decreases |SuffixTable| - k
  {
    if k == |SuffixTable| then None
    else if EndsWith(name, SuffixTable[k].0) then Some(SuffixTable[k].1)
    else FirstMatchFrom(name, k + 1)
  }

  /** One step of the lookup: entry `k` decides if its suffix matches, otherwise the rest of the table does. */
  lemma Step(name: string, k: nat)
    requires k <= |SuffixTable|
    ensures k < |SuffixTable| && EndsWith(name, SuffixTable[k].0) ==> FirstMatchFrom(name, k) == Some(SuffixTable[k].1)
    ensures k < |SuffixTable| && !EndsWith(name, SuffixTable[k].0) ==> FirstMatchFrom(name, k) == FirstMatchFrom(name, k + 1)
    ensures k == |SuffixTable| ==> FirstMatchFrom(name, k) == None
  {
  }

  /** The content type a file is served with. */
  function TypeFor(name: string, download: bool): string
  {
    if download then OCTET_STREAM
    else match FirstMatchFrom(name, 0)
      case Some(t) => t
      case None => TEXT_PLAIN
  }

  /** The `download` argument overrides every suffix. */
  lemma DownloadOverrides(name: string)
    ensures TypeFor(name, true) == OCTET_STREAM
  {
  }

  /**
   * Without `download`, the type is that of the first suffix in table order
   * that ends the name.
   */
  lemma {:induction false} FirstSuffixWins(name: string, i: nat)
    requires i < |SuffixTable| && EndsWith(name, SuffixTable[i].0)
    requires forall j :: 0 <= j < i ==> !EndsWith(name, SuffixTable[j].0)
    ensures TypeFor(name, false) == SuffixTable[i].1
  {
    var r := FirstMatchFrom(name, 0);
    var k :| 0 <= k < |SuffixTable| && EndsWith(name, SuffixTable[k].0) && r.value == SuffixTable[k].1
             && forall j :: 0 <= j < k ==> !EndsWith(name, SuffixTable[j].0);
    assert k == i by {
      assert !(k < i) && !(i < k);
    }
  }

  /** A name that no suffix of the table ends is served as plain text. */
  lemma UnmatchedIsPlainText(name: string)
    requires forall i :: 0 <= i < |SuffixTable| ==> !EndsWith(name, SuffixTable[i].0)
    ensures TypeFor(name, false) == TEXT_PLAIN
  {
  }

  /** `.htm` and `.html` both give `text/html`. */
  lemma HtmlSuffixes(name: string)
    requires EndsWith(name, ".htm") || EndsWith(name, ".html")
    ensures TypeFor(name, false) == "text/html"
  {
    if EndsWith(name, ".htm") {
      FirstSuffixWins(name, 0);
    } else {
      assert !EndsWith(name, ".htm") by {
        assert name[|name| - 1] == 'l';
      }
      FirstSuffixWins(name, 1);
    }
  }
}

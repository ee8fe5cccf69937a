/**
 * The URL library the shortcut package relies on (Go's net/url), kept abstract.
 * A URL is read through its parsed record; parsing and serialisation are a
 * pair of functions the model does not look inside.
 */
module Urls {

  /** The parts of a parsed URL, after the fields of net/url's URL struct. */
  datatype Url = Url(
    scheme: string,
    rawOpaque: string,
    user: string,
    host: string,
    path: string,
    rawQuery: string,
    fragment: string)

  /** Parsing (its successful path) and serialisation of URLs. */
  datatype UrlCodec = UrlCodec(parse: string -> Url, render: Url -> string)

  /**
   * An assumption about a URL library, taken as a hypothesis wherever it is
   * used: reading back the text of a URL serialised with a scheme gives a URL
   * that still has a scheme and that serialises to the same text. net/url
   * does not satisfy it in general: its parser lower-cases the scheme while
   * its serialiser writes the scheme as stored, and some texts it serialises
   * it refuses to parse (a path written where the host goes, such as
   * "http://a%20b").
   */
  ghost predicate RenderStable(codec: UrlCodec) {
    forall u: Url :: u.scheme != "" ==>
      codec.parse(codec.render(u)).scheme != "" &&
      codec.render(codec.parse(codec.render(u))) == codec.render(u)
  }

  /** ASCII letters in lower case, other characters unchanged. */
  function LowerAscii(s: string): (r: string)
    ensures |r| == |s|
    ensures forall i :: 0 <= i < |s| && !('A' <= s[i] <= 'Z') ==> r[i] == s[i]
  {
    seq(|s|, i requires 0 <= i < |s| => if 'A' <= s[i] <= 'Z' then (s[i] as int + 32) as char else s[i])
  }

  /**
   * A library reduced to the scheme that, like net/url, lower-cases the
   * scheme when parsing and writes it back as stored when serialising.
   */
  const SchemeFoldingCodec: UrlCodec :=
    UrlCodec((t: string) => Url(LowerAscii(t), "", "", "", "", "", ""), (u: Url) => u.scheme)

  /** Lower-casing the scheme on parse alone is enough to break RenderStable. */
  lemma SchemeFoldingBreaksRenderStable()
    ensures !RenderStable(SchemeFoldingCodec)
  {
    var u := Url("HTTP", "", "", "", "", "", "");
    assert LowerAscii("HTTP") == "http";
    assert SchemeFoldingCodec.render(SchemeFoldingCodec.parse(SchemeFoldingCodec.render(u))) == "http";
  }
}

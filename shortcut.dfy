/**
 * The shortcut package: the Shortcut record, URL normalisation, and the
 * index with its two-tier lookup (an exact match on the alias first, a
 * full-text search over every field only when that finds nothing).
 *
 * The search engine's store is a map from ShortForm to document, because the
 * document id given to the engine when a shortcut is added is its ShortForm:
 * adding under a ShortForm that is already there replaces the old document.
 * The full-text tier is the engine's business and enters as an answer given
 * to FindShortcut.
 */
module Shortcuts {
  import opened Optional
  import opened Urls

  /** A mapping from a short form to a URL, with free text for fuzzy search. */
  datatype Shortcut = Shortcut(url: string, shortForm: string, description: string)

  /** A stored field as the engine hands it back: a string, or something else. */
  datatype FieldValue = Text(text: string) | NonText

  /** The stored fields of one hit, by field name. */
  type Fields = map<string, FieldValue>

  /** The names under which a Shortcut's fields are stored and requested. */
  const UrlField: string := "URL"
  const ShortFormField: string := "ShortForm"
  const DescriptionField: string := "Description"

  /** The scheme NormalizeURL supplies when a URL has none. */
  const DefaultScheme: string := "http"

  /** The fields the engine stores for a shortcut. */
  function StoredFields(s: Shortcut): (f: Fields)
    ensures f.Keys == {UrlField, ShortFormField, DescriptionField}
  {
    map[UrlField := Text(s.url), ShortFormField := Text(s.shortForm),
        DescriptionField := Text(s.description)]
  }

  predicate HasText(fields: Fields, key: string) {
    key in fields && fields[key].Text?
  }

  /**
   * A hit FromFields can read: URL and ShortForm hold strings. Any other hit
   * makes the Go type assertions panic.
   */
  predicate Decodable(fields: Fields) {
    HasText(fields, UrlField) && HasText(fields, ShortFormField)
  }

  /** Shortcut from the fields of a hit; a missing Description becomes "". */
  function FromFields(fields: Fields): (s: Shortcut)
    requires Decodable(fields)
    ensures s.url == fields[UrlField].text && s.shortForm == fields[ShortFormField].text
    ensures !HasText(fields, DescriptionField) ==> s.description == ""
    ensures HasText(fields, DescriptionField) ==> s.description == fields[DescriptionField].text
  {
    Shortcut(fields[UrlField].text, fields[ShortFormField].text,
             if HasText(fields, DescriptionField) then fields[DescriptionField].text else "")
  }

  /** Reading back the fields stored for a shortcut gives the shortcut. */
  lemma FromFieldsInvertsStoredFields(s: Shortcut)
    ensures Decodable(StoredFields(s))
    ensures FromFields(StoredFields(s)) == s
  {
  }

  /** A hit without a (string) Description still decodes, with description "". */
  lemma FromFieldsWithoutDescription(url: string, shortForm: string)
    ensures var f := map[UrlField := Text(url), ShortFormField := Text(shortForm)];
      Decodable(f) && FromFields(f) == Shortcut(url, shortForm, "")
  {
  }

  /** The record step of NormalizeURL: an empty scheme becomes "http". */
  function WithDefaultScheme(u: Url): (r: Url)
    ensures r.scheme != ""
    ensures u.scheme == "" ==> r.scheme == DefaultScheme
    ensures u.scheme != "" ==> r == u
    ensures r.(scheme := u.scheme) == u
  {
    if u.scheme == "" then u.(scheme := DefaultScheme) else u
  }

  lemma WithDefaultSchemeIdempotent(u: Url)
    ensures WithDefaultScheme(WithDefaultScheme(u)) == WithDefaultScheme(u)
  {
  }

  /**
   * Parse the URL, default its scheme, and serialise it again: the result is
   * always the text of a URL that has a scheme.
   */
  function NormalizeURL(codec: UrlCodec, s: string): (r: string)
    ensures exists u: Url :: u.scheme != "" && r == codec.render(u)
  {
    codec.render(WithDefaultScheme(codec.parse(s)))
  }

  /** A URL whose parse already has a scheme is only re-serialised. */
  lemma NormalizeURLKeepsScheme(codec: UrlCodec, s: string)
    requires codec.parse(s).scheme != ""
    ensures NormalizeURL(codec, s) == codec.render(codec.parse(s))
  {
  }

  /** A URL without a scheme comes out as the same URL with scheme "http". */
  lemma NormalizeURLDefaultsScheme(codec: UrlCodec, s: string)
    requires codec.parse(s).scheme == ""
    ensures NormalizeURL(codec, s) == codec.render(codec.parse(s).(scheme := DefaultScheme))
  {
  }

  /** Read back, a normalised URL always has a scheme. */
  lemma NormalizedURLHasScheme(codec: UrlCodec, s: string)
    requires RenderStable(codec)
    ensures codec.parse(NormalizeURL(codec, s)).scheme != ""
  {
    var u := WithDefaultScheme(codec.parse(s));
    assert u.scheme != "";
  }

  /** Normalising twice is normalising once. */
  lemma NormalizeURLIdempotent(codec: UrlCodec, s: string)
    requires RenderStable(codec)
    ensures NormalizeURL(codec, NormalizeURL(codec, s)) == NormalizeURL(codec, s)
  {
    var u := WithDefaultScheme(codec.parse(s));
    assert u.scheme != "";
    var v := codec.parse(codec.render(u));
    assert v.scheme != "" && codec.render(v) == codec.render(u);
    assert WithDefaultScheme(v) == v;
  }

  /** The answer of one search request: the hits in the engine's order, or an error. */
  datatype SearchResponse = Hits(hits: seq<Fields>) | SearchFailed(error: string)

  predicate Readable(r: SearchResponse) {
    r.Hits? ==> forall h :: h in r.hits ==> Decodable(h)
  }

  /** A searchable collection of shortcuts. */
  class Index {
    /** The URL library the index normalises with. */
    const codec: UrlCodec

    /** The engine's documents, by document id. */
    var docs: map<string, Shortcut>

    /**
     * Every document is stored under its own ShortForm, and its URL is the
     * serialisation of a URL that has a scheme.
     */
    ghost predicate Valid()
      reads this
    {
      && (forall k :: k in docs ==> docs[k].shortForm == k)
      && (forall k :: k in docs ==> exists u: Url :: u.scheme != "" && docs[k].url == codec.render(u))
    }

    /** A full-text answer names only documents of this index. */
    ghost predicate FromStore(r: SearchResponse)
      reads this
    {
      && Readable(r)
      && (r.Hits? ==> forall h :: h in r.hits ==> exists d :: d in docs.Values && h == StoredFields(d))
    }

    /** A freshly created index holds no documents. */
    constructor (codec: UrlCodec)
      ensures Valid() && docs == map[] && this.codec == codec
    {
      this.codec := codec;
      docs := map[];
    }

    /** Read back, every stored URL has a scheme. */
    lemma StoredUrlHasScheme(k: string)
      requires Valid() && k in docs
      requires RenderStable(codec)
      ensures codec.parse(docs[k].url).scheme != ""
    {
      var u: Url :| u.scheme != "" && docs[k].url == codec.render(u);
    }

    /**
     * The engine's answer to a term query on ShortForm. The field is indexed
     * with the keyword analyzer, so the whole query is one term and only a
     * ShortForm equal to it matches. `fault` is a failure of the engine.
     */
    function TermSearch(query: string, fault: Option<string>): (r: SearchResponse)
      reads this
      requires Valid()
      ensures Readable(r)
      ensures fault.Some? ==> r == SearchFailed(fault.value)
      ensures fault.None? ==> r.Hits? && |r.hits| <= 1
      ensures fault.None? ==> forall h :: h in r.hits <==>
        exists d :: d in docs.Values && d.shortForm == query && h == StoredFields(d)
    {
      match fault
      case Some(e) => SearchFailed(e)
      case None =>
        if query in docs then
          assert docs[query] in docs.Values;
          Hits([StoredFields(docs[query])])
        else Hits([])
    }

    /**
     * Stores `s` with its URL normalised, under its ShortForm, and returns
     * the normalised URL. The engine's write error is discarded: when the
     * write fails (`writeFault`), the store is unchanged and the normalised
     * URL is returned all the same.
     */
    method AddShortcut(s: Shortcut, writeFault: Option<string>) returns (normalizedURL: string)
      requires Valid()
      modifies this
      ensures Valid()
      ensures normalizedURL == NormalizeURL(codec, s.url)
      ensures writeFault.None? ==> docs == old(docs)[s.shortForm := s.(url := normalizedURL)]
      ensures writeFault.Some? ==> docs == old(docs)
    {
      normalizedURL := NormalizeURL(codec, s.url);
      var stored := s.(url := normalizedURL);
      ghost var u := WithDefaultScheme(codec.parse(s.url));
      assert u.scheme != "" && stored.url == codec.render(u);
      if writeFault.None? {
        docs := docs[s.shortForm := stored];
      }
    }

    /**
     * Finds `query`: an exact match on ShortForm first (`sole` is then true);
     * only when that has no hit, the full-text answer `fuzzy`. An error at
     * either tier is returned with no results and no fallback. `exactFault`
     * is a failure of the engine on the exact tier.
     */
    method FindShortcut(query: string, exactFault: Option<string>, fuzzy: SearchResponse)
      returns (results: seq<Shortcut>, sole: bool, err: Option<string>)
      requires Valid()
      requires FromStore(fuzzy)
      ensures err.Some? ==> results == [] && !sole
      ensures exactFault.Some? ==> err == exactFault
      ensures sole <==> exactFault.None? && query in docs
      ensures sole ==> err.None? && |results| >= 1 && results == [docs[query]]
      ensures sole ==> forall d :: d in results <==> d in docs.Values && d.shortForm == query
      ensures forall r :: r in results ==> r in docs.Values
      ensures exactFault.None? && query !in docs && fuzzy.SearchFailed? ==>
        err == Some(fuzzy.error)
      ensures exactFault.None? && query !in docs && fuzzy.Hits? ==>
        err.None? && |results| == |fuzzy.hits| &&
        forall i :: 0 <= i < |results| ==> results[i] == FromFields(fuzzy.hits[i])
    {
      sole := true;
      var searchResult := TermSearch(query, exactFault);
      if searchResult.SearchFailed? {
        return [], false, Some(searchResult.error);
      }
      if |searchResult.hits| == 0 {
        sole := false;
        searchResult := fuzzy;
        if searchResult.SearchFailed? {
          return [], false, Some(searchResult.error);
        }
      }
      var hits := searchResult.hits;
      assert FromStore(searchResult);
      results := [];
      for i := 0 to |hits|
        invariant |results| == i
        invariant forall j :: 0 <= j < i ==> results[j] == FromFields(hits[j])
        invariant forall j :: 0 <= j < i ==> results[j] in docs.Values
      {
        assert hits[i] in hits;
        ghost var d :| d in docs.Values && hits[i] == StoredFields(d);
        FromFieldsInvertsStoredFields(d);
        results := results + [FromFields(hits[i])];
      }
      err := None;
      if sole {
        FromFieldsInvertsStoredFields(docs[query]);
        ExactHitIsTheDocument(query);
      }
    }

    /** The only stored document with ShortForm `query` is the one under key `query`. */
    lemma ExactHitIsTheDocument(query: string)
      requires Valid() && query in docs
      ensures forall d :: d in [docs[query]] <==> d in docs.Values && d.shortForm == query
    {
      forall d | d in docs.Values && d.shortForm == query
        ensures d == docs[query]
      {
        var k :| k in docs && docs[k] == d;
        assert docs[k].shortForm == k;
      }
    }
  }
}

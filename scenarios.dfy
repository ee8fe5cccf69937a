/**
 * The expectations of the shortcut package's tests, as client methods of the
 * index: the four shortcuts the tests add, and what each lookup must give.
 * The full-text answers are fixed here as the engine's ranking would give
 * them; the URL library stays abstract, so the expected URL is the
 * normalisation of the URL that was added.
 */
module ShortcutScenarios {
  import opened Optional
  import opened Urls
  import opened Shortcuts

  /** The shortcuts the tests add, in order, before their URLs are normalised. */
  function TestShortcuts(): seq<Shortcut> {
    [ Shortcut("bluemoon.org", "blue", "A total dream of a website--Blue Mood\n\n James Front."),
      Shortcut("reddit.com", "red", "Reddit.com--The front page of the internet."),
      Shortcut("bluemoon.org", "blue-is-more-violet-than-red", "This is a duplicate"),
      Shortcut("ftp://myserv.org/files/secretfile", "2016-payroll", "This is a duplicate") ]
  }

  /** A test shortcut as the index stores it. */
  function Stored(codec: UrlCodec, i: nat): Shortcut
    requires i < |TestShortcuts()|
  {
    TestShortcuts()[i].(url := NormalizeURL(codec, TestShortcuts()[i].url))
  }

  /** A fresh index with the four test shortcuts added. */
  method SeededIndex(codec: UrlCodec) returns (index: Index)
    ensures fresh(index) && index.Valid() && index.codec == codec
    ensures index.docs == map["blue" := Stored(codec, 0), "red" := Stored(codec, 1),
                              "blue-is-more-violet-than-red" := Stored(codec, 2),
                              "2016-payroll" := Stored(codec, 3)]
  {
    index := new Index(codec);
    var s := TestShortcuts();
    var _ := index.AddShortcut(s[0], None);
    var _ := index.AddShortcut(s[1], None);
    var _ := index.AddShortcut(s[2], None);
    var _ := index.AddShortcut(s[3], None);
  }

  /** "red" is an exact alias: one result, sole, the normalised reddit.com. */
  method RetrieveRed(codec: UrlCodec) returns (results: seq<Shortcut>, sole: bool, err: Option<string>)
    ensures sole && err.None? && |results| == 1
    ensures results[0].url == NormalizeURL(codec, "reddit.com")
  {
    var index := SeededIndex(codec);
    results, sole, err := index.FindShortcut("red", None, Hits([]));
  }

  /**
   * Exact matching is whole-string: "blue" finds only the shortcut named
   * "blue", not "blue-is-more-violet-than-red", and the long name finds its own.
   */
  method RetrieveBlueAndBlueFull(codec: UrlCodec)
    returns (blue: seq<Shortcut>, blueSole: bool, full: seq<Shortcut>, fullSole: bool)
    ensures blueSole && blue == [Stored(codec, 0)]
    ensures fullSole && full == [Stored(codec, 2)]
    ensures blue[0].url == full[0].url == NormalizeURL(codec, "bluemoon.org")
  {
    var index := SeededIndex(codec);
    var err;
    blue, blueSole, err := index.FindShortcut("blue", None, Hits([]));
    full, fullSole, err := index.FindShortcut("blue-is-more-violet-than-red", None, Hits([]));
  }

  /**
   * "page of" and "internet page" (words that are apart in the description)
   * are no aliases; the full-text answer is the reddit document alone, and
   * it comes back as one result, not sole. Only the engine reads the query,
   * so both queries go through the index in the same way.
   */
  method RetrieveByDescriptionWords(codec: UrlCodec)
    returns (pageOf: seq<Shortcut>, pageOfSole: bool, internetPage: seq<Shortcut>, internetPageSole: bool)
    ensures !pageOfSole && pageOf == [Stored(codec, 1)]
    ensures !internetPageSole && internetPage == [Stored(codec, 1)]
    ensures pageOf[0].url == internetPage[0].url == NormalizeURL(codec, "reddit.com")
  {
    var index := SeededIndex(codec);
    assert index.docs["red"] == Stored(codec, 1);
    var engineAnswer := Hits([StoredFields(Stored(codec, 1))]);
    FromFieldsInvertsStoredFields(Stored(codec, 1));
    var err;
    pageOf, pageOfSole, err := index.FindShortcut("page of", None, engineAnswer);
    internetPage, internetPageSole, err := index.FindShortcut("internet page", None, engineAnswer);
  }

  /** "front" is no alias; the full-text answer, two descriptions, comes back in its order. */
  method RetrieveFront(codec: UrlCodec) returns (results: seq<Shortcut>, sole: bool, err: Option<string>)
    ensures !sole && err.None? && |results| == 2
    ensures results[0].url == NormalizeURL(codec, "reddit.com")
  {
    var index := SeededIndex(codec);
    assert index.docs["red"] == Stored(codec, 1) && index.docs["blue"] == Stored(codec, 0);
    var engineAnswer := Hits([StoredFields(Stored(codec, 1)), StoredFields(Stored(codec, 0))]);
    results, sole, err := index.FindShortcut("front", None, engineAnswer);
    FromFieldsInvertsStoredFields(Stored(codec, 1));
  }

  /** Two shortcuts sharing a description are both kept by a full-text answer naming both. */
  method RetrieveDuplicate(codec: UrlCodec) returns (results: seq<Shortcut>, sole: bool, err: Option<string>)
    ensures !sole && err.None?
    ensures results == [Stored(codec, 2), Stored(codec, 3)]
  {
    var index := SeededIndex(codec);
    assert index.docs["blue-is-more-violet-than-red"] == Stored(codec, 2);
    assert index.docs["2016-payroll"] == Stored(codec, 3);
    var engineAnswer := Hits([StoredFields(Stored(codec, 2)), StoredFields(Stored(codec, 3))]);
    results, sole, err := index.FindShortcut("duplicate", None, engineAnswer);
    FromFieldsInvertsStoredFields(Stored(codec, 2));
    FromFieldsInvertsStoredFields(Stored(codec, 3));
  }

  /** A query that matches nothing is an empty answer, not an error. */
  method RetrieveNothing(codec: UrlCodec) returns (results: seq<Shortcut>, sole: bool, err: Option<string>)
    ensures results == [] && !sole && err.None?
  {
    var index := SeededIndex(codec);
    results, sole, err := index.FindShortcut("violet", None, Hits([]));
  }

  /** A failing store surfaces as an error with no results, even for an existing alias. */
  method RetrieveWithStoreFault(codec: UrlCodec) returns (results: seq<Shortcut>, sole: bool, err: Option<string>)
    ensures results == [] && !sole && err == Some("store fault")
  {
    var index := SeededIndex(codec);
    results, sole, err := index.FindShortcut("red", Some("store fault"), Hits([]));
  }
}

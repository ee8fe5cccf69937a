/**
 * The fetcher package: FindDescription gets a page, at most three times, and
 * collects descriptive text from its HTML tokens: the text after a title tag
 * and the content of meta tags named author, description, keywords or
 * creator, joined with newlines.
 *
 * The network is a function giving the outcome of the i-th GET of a URL; the
 * HTML tokenizer is the sequence of tokens it reports before its error token.
 */
module Fetcher {

  /** The kinds of token the HTML tokenizer reports (its error token ends the stream). */
  datatype TokenType =
    | TextToken
    | StartTagToken
    | EndTagToken
    | SelfClosingTagToken
    | CommentToken
    | DoctypeToken

  /** The atoms the scan tells apart; every other tag name, and every non-tag token, is OtherAtom. */
  datatype Atom = Title | Meta | OtherAtom

  datatype Attribute = Attribute(key: string, val: string)

  /** A token: for a tag its lower-case name is `data`, for text the text itself. */
  datatype Token = Token(tokenType: TokenType, dataAtom: Atom, data: string, attr: seq<Attribute>)

  /** The outcome of one http.Get: an error, or a body read as tokens. */
  datatype FetchOutcome = GetFailed | Fetched(body: seq<Token>)

  /** The number of GETs FindDescription makes before giving up. */
  const MaxAttempts: nat := 3

  /** The meta names whose content describes a page. */
  const DescriptiveNames: set<string> := {"author", "description", "keywords", "creator"}

  const Separator: string := "\n"

  /** strings.Join: the elements with `sep` between each two. */
  function Join(elems: seq<string>, sep: string): string
    decreases |elems|
  {
    if |elems| == 0 then ""
    else if |elems| == 1 then elems[0]
    else elems[0] + sep + Join(elems[1..], sep)
  }

  /** Joining two non-empty batches puts one separator between their joins. */
  lemma {:induction false} JoinConcat(a: seq<string>, b: seq<string>, sep: string)
    requires |a| > 0 && |b| > 0
    ensures Join(a + b, sep) == Join(a, sep) + sep + Join(b, sep)
    decreases |a|
  {
    if |a| == 1 {
      assert a + b == [a[0]] + b;
      assert (a + b)[1..] == b;
    } else {
      assert (a + b)[1..] == a[1..] + b;
      JoinConcat(a[1..], b, sep);
    }
  }

  /** The value of the last attribute with `key`, or "" when there is none. */
  function LastValue(attrs: seq<Attribute>, key: string): string
    decreases |attrs|
  {
    if attrs == [] then ""
    else if attrs[|attrs| - 1].key == key then attrs[|attrs| - 1].val
    else LastValue(attrs[..|attrs| - 1], key)
  }

  /** Without an attribute of that key, LastValue is "". */
  lemma {:induction false} LastValueWithoutKey(attrs: seq<Attribute>, key: string)
    requires forall j :: 0 <= j < |attrs| ==> attrs[j].key != key
    ensures LastValue(attrs, key) == ""
    decreases |attrs|
  {
    if attrs != [] {
      var init := attrs[..|attrs| - 1];
      assert forall j :: 0 <= j < |init| ==> init[j] == attrs[j];
      LastValueWithoutKey(init, key);
    }
  }

  /** LastValue is the value of the last attribute with that key. */
  lemma {:induction false} LastValueIsLastMatch(attrs: seq<Attribute>, key: string, i: nat)
    requires i < |attrs| && attrs[i].key == key
    requires forall j :: i < j < |attrs| ==> attrs[j].key != key
    ensures LastValue(attrs, key) == attrs[i].val
    decreases |attrs|
  {
    var n := |attrs| - 1;
    if i < n {
      var init := attrs[..n];
      assert attrs[n].key != key;
      assert forall j :: 0 <= j < n ==> init[j] == attrs[j];
      LastValueIsLastMatch(init, key, i);
    }
  }

  /**
   * The attribute loop of a meta tag: each `content` or `name` attribute
   * overwrites the value kept so far.
   */
  method MetaAttributes(attrs: seq<Attribute>) returns (content: string, name: string)
    ensures content == LastValue(attrs, "content") && name == LastValue(attrs, "name")
  {
    content, name := "", "";
    for i := 0 to |attrs|
      invariant content == LastValue(attrs[..i], "content")
      invariant name == LastValue(attrs[..i], "name")
    {
      assert attrs[..i + 1][..i] == attrs[..i];
      var att := attrs[i];
      if att.key == "content" {
        content := att.val;
      } else if att.key == "name" {
        name := att.val;
      }
    }
    assert attrs[..|attrs|] == attrs;
  }

  /** What a meta tag adds to the description: its content, when both are set and the name is descriptive. */
  function MetaContribution(t: Token): (r: seq<string>)
    ensures |r| <= 1
    ensures forall c :: c in r ==> c != "" && c == LastValue(t.attr, "content")
    ensures r != [] ==> LastValue(t.attr, "name") in DescriptiveNames
  {
    var content := LastValue(t.attr, "content");
    var name := LastValue(t.attr, "name");
    if content != "" && name != "" && name in DescriptiveNames then [content] else []
  }

  /** A meta tag contributes exactly when its last content and last name qualify. */
  lemma MetaContributionIff(t: Token, content: string, name: string)
    requires content == LastValue(t.attr, "content") && name == LastValue(t.attr, "name")
    ensures MetaContribution(t) == [content] <==> content != "" && name in DescriptiveNames
    ensures MetaContribution(t) != [content] ==> MetaContribution(t) == []
  {
  }

  /**
   * The strings the token scan collects, in document order. A token whose
   * atom is title, start or end tag alike, adds the data of the token after
   * it (the empty string when the stream ends there), and that token is not
   * examined itself. A meta token adds its MetaContribution.
   */
  function Collected(ts: seq<Token>): (ds: seq<string>)
    ensures |ds| <= |ts|
    decreases |ts|
  {
    if ts == [] then []
    else if ts[0].dataAtom == Title then
      if |ts| == 1 then [""] else [ts[1].data] + Collected(ts[2..])
    else if ts[0].dataAtom == Meta then MetaContribution(ts[0]) + Collected(ts[1..])
    else Collected(ts[1..])
  }

  /** Tokens that are neither title nor meta contribute nothing. */
  lemma {:induction false} CollectedIgnoresOtherTokens(ts: seq<Token>)
    requires forall t :: t in ts ==> t.dataAtom == OtherAtom
    ensures Collected(ts) == []
    decreases |ts|
  {
    if ts != [] {
      assert forall t :: t in ts[1..] ==> t in ts;
      CollectedIgnoresOtherTokens(ts[1..]);
    }
  }

  /** The collected strings keep document order across a title-free prefix. */
  lemma {:induction false} CollectedConcat(a: seq<Token>, b: seq<Token>)
    requires forall t :: t in a ==> t.dataAtom != Title
    ensures Collected(a + b) == Collected(a) + Collected(b)
    decreases |a|
  {
    if a == [] {
      assert a + b == b;
    } else {
      assert (a + b)[0] == a[0];
      assert (a + b)[1..] == a[1..] + b;
      assert forall t :: t in a[1..] ==> t in a;
      CollectedConcat(a[1..], b);
    }
  }

  /**
   * The description of a page whose first part has no title token is the
   * description of each part, one newline between them, when both parts
   * contribute something.
   */
  lemma DescriptionOfSplitPage(a: seq<Token>, b: seq<Token>)
    requires forall t :: t in a ==> t.dataAtom != Title
    requires Collected(a) != [] && Collected(b) != []
    ensures Join(Collected(a + b), Separator) ==
      Join(Collected(a), Separator) + Separator + Join(Collected(b), Separator)
  {
    CollectedConcat(a, b);
    JoinConcat(Collected(a), Collected(b), Separator);
  }

  /** A title token consumes the next token whatever it is, even a descriptive meta tag. */
  lemma TitleConsumesNextToken(t: Token, next: Token, rest: seq<Token>)
    requires t.dataAtom == Title
    ensures Collected([t, next] + rest) == [next.data] + Collected(rest)
  {
    var ts := [t, next] + rest;
    assert ts[2..] == rest;
  }

  /**
   * The token loop of FindDescription. It advances the tokenizer a second
   * time inside the title branch.
   */
  method ScanTokens(tokens: seq<Token>) returns (ds: seq<string>)
    ensures ds == Collected(tokens)
  {
    ds := [];
    var pos := 0;
    while pos < |tokens|
      invariant pos <= |tokens|
      invariant ds + Collected(tokens[pos..]) == Collected(tokens)
      decreases |tokens| - pos
    {
      var tk := tokens[pos];
      ghost var rest := tokens[pos..];
      assert rest[0] == tk;
      pos := pos + 1;
      assert rest[1..] == tokens[pos..];
      if tk.dataAtom == Title {
        var data := "";
        if pos < |tokens| {
          data := tokens[pos].data;
          pos := pos + 1;
          assert rest[2..] == tokens[pos..];
        }
        ds := ds + [data];
      } else if tk.dataAtom == Meta {
        var content, name := MetaAttributes(tk.attr);
        if content != "" && name != "" && name in DescriptiveNames {
          ds := ds + [content];
        }
      }
    }
  }

  /** The description FindDescription returns when its first GET is attempt number `attempt`. */
  function DescriptionFrom(get: (string, nat) -> FetchOutcome, url: string, attempt: nat): string
    decreases MaxAttempts - attempt
  {
    if attempt >= MaxAttempts then ""
    else match get(url, attempt)
      case Fetched(body) => Join(Collected(body), Separator)
      case GetFailed => DescriptionFrom(get, url, attempt + 1)
  }

  /**
   * FindDescription: up to three GETs of `url`; the first that succeeds is
   * scanned and its collected strings joined with newlines; when all three
   * fail the description is "".
   */
  method FindDescription(get: (string, nat) -> FetchOutcome, url: string) returns (description: string)
    ensures description == DescriptionFrom(get, url, 0)
  {
    var i := 0;
    while i < MaxAttempts
      invariant 0 <= i <= MaxAttempts
      invariant DescriptionFrom(get, url, i) == DescriptionFrom(get, url, 0)
    {
      var resp := get(url, i);
      if resp.GetFailed? {
        i := i + 1;
        continue;
      }
      var ds := ScanTokens(resp.body);
      return Join(ds, Separator);
    }
    return "";
  }

  /** Three failed GETs give the empty description. */
  lemma {:induction false} DescriptionAllFailed(get: (string, nat) -> FetchOutcome, url: string)
    requires forall i :: 0 <= i < MaxAttempts ==> get(url, i).GetFailed?
    ensures DescriptionFrom(get, url, 0) == ""
  {
    assert DescriptionFrom(get, url, 2) == "";
    assert DescriptionFrom(get, url, 1) == "";
  }

  /** The first successful GET decides the description, even an empty one; no later GET is consulted. */
  lemma {:induction false} DescriptionFirstFetch(get: (string, nat) -> FetchOutcome, url: string, k: nat)
    requires k < MaxAttempts && get(url, k).Fetched?
    requires forall i :: 0 <= i < k ==> get(url, i).GetFailed?
    ensures DescriptionFrom(get, url, 0) == Join(Collected(get(url, k).body), Separator)
  {
    var j := k;
    while j > 0
      invariant 0 <= j <= k
      invariant DescriptionFrom(get, url, j) == Join(Collected(get(url, k).body), Separator)
    {
      j := j - 1;
      assert get(url, j).GetFailed?;
    }
  }

  /** Only the first three GETs matter: networks that agree on them give the same description. */
  lemma {:induction false} DescriptionAtMostThreeAttempts(
    get1: (string, nat) -> FetchOutcome, get2: (string, nat) -> FetchOutcome, url: string, attempt: nat)
    requires forall i :: attempt <= i < MaxAttempts ==> get1(url, i) == get2(url, i)
    ensures DescriptionFrom(get1, url, attempt) == DescriptionFrom(get2, url, attempt)
    decreases MaxAttempts - attempt
  {
    if attempt < MaxAttempts {
      assert get1(url, attempt) == get2(url, attempt);
      DescriptionAtMostThreeAttempts(get1, get2, url, attempt + 1);
    }
  }

  /**
   * `<title>Foo</title><meta name="description" content="bar">` as the
   * tokenizer reports it.
   */
  function EndTitlePage(): seq<Token> {
    [ Token(StartTagToken, Title, "title", []),
      Token(TextToken, OtherAtom, "Foo", []),
      Token(EndTagToken, Title, "title", []),
      Token(StartTagToken, Meta, "meta", [Attribute("name", "description"), Attribute("content", "bar")]) ]
  }

  /**
   * As written, the end tag `</title>` also takes the title branch: it
   * swallows the meta tag after it and adds that tag's name instead of its content.
   */
  lemma EndTitleSwallowsMeta()
    ensures Collected(EndTitlePage()) == ["Foo", "meta"]
    ensures MetaContribution(EndTitlePage()[3]) == ["bar"]
    ensures "bar" !in Collected(EndTitlePage())
  {
    var p := EndTitlePage();
    assert p[2..] == [p[2], p[3]];
    assert [p[2], p[3]][2..] == [];
  }

  /** Tokens as the tokenizer reports them: text carries no tag atom. */
  predicate TextHasNoAtom(ts: seq<Token>) {
    forall t :: t in ts ==> t.tokenType == TextToken ==> t.dataAtom == OtherAtom
  }

  /**
   * The scan as evidently intended: only a title start tag reads the title,
   * and only when a text token follows it; meta tags are handled as written.
   */
  function IntendedCollected(ts: seq<Token>): (ds: seq<string>)
    ensures |ds| <= |ts|
    decreases |ts|
  {
    if ts == [] then []
    else if ts[0].dataAtom == Title && ts[0].tokenType == StartTagToken then
      if |ts| > 1 && ts[1].tokenType == TextToken then [ts[1].data] + IntendedCollected(ts[2..])
      else IntendedCollected(ts[1..])
    else if ts[0].dataAtom == Meta then MetaContribution(ts[0]) + IntendedCollected(ts[1..])
    else IntendedCollected(ts[1..])
  }

  /** With the intended scan, no descriptive meta tag is lost. */
  lemma {:induction false} IntendedKeepsEveryMeta(ts: seq<Token>, i: nat)
    requires TextHasNoAtom(ts)
    requires i < |ts| && ts[i].dataAtom == Meta && MetaContribution(ts[i]) != []
    ensures MetaContribution(ts[i])[0] in IntendedCollected(ts)
    decreases |ts|
  {
    assert forall t :: t in ts[1..] ==> t in ts;
    if i == 0 {
    } else if ts[0].dataAtom == Title && ts[0].tokenType == StartTagToken {
      if |ts| > 1 && ts[1].tokenType == TextToken {
        assert ts[1] in ts;
        assert i != 1;
        assert forall t :: t in ts[2..] ==> t in ts;
        assert ts[2..][i - 2] == ts[i];
        IntendedKeepsEveryMeta(ts[2..], i - 2);
      } else {
        assert ts[1..][i - 1] == ts[i];
        IntendedKeepsEveryMeta(ts[1..], i - 1);
      }
    } else {
      assert ts[1..][i - 1] == ts[i];
      IntendedKeepsEveryMeta(ts[1..], i - 1);
    }
  }

  /** On the page above, the intended scan keeps the meta description. */
  lemma IntendedEndTitlePage()
    ensures IntendedCollected(EndTitlePage()) == ["Foo", "bar"]
  {
    var p := EndTitlePage();
    assert p[2..] == [p[2], p[3]];
    assert [p[2], p[3]][1..] == [p[3]];
    assert [p[3]][1..] == [];
  }
}

/**
 * The HTTP handlers of the link shortener: what Get and Post decide for a
 * request, and what Post writes to the index. A response is a value; the
 * write that the source performs in a goroutine after responding is the
 * last step of Post here.
 */
module Shortlink {
  import opened Optional
  import opened Urls
  import opened Shortcuts
  import opened Fetcher

  const StatusSeeOther: int := 303
  const StatusBadRequest: int := 400
  const StatusInternalServerError: int := 500

  const ShortFormKey: string := "shortform"
  const UrlKey: string := "url"
  const DescriptionKey: string := "description"
  const AttemptKey: string := "attempt"

  /** The values of one form key; a parsed form never holds an empty list. */
  type Values = s: seq<string> | |s| > 0 witness [""]

  /** A request: the route variables and the parsed form. */
  datatype Request = Request(vars: map<string, string>, form: map<string, Values>)

  datatype Response =
    | Redirect(status: int, location: string)
    | HttpError(status: int, message: string)
    | ShowForm(shortForm: string, shortcuts: seq<Shortcut>)

  /** A route variable, "" when the route has none of that name. */
  function Var(r: Request, key: string): string {
    if key in r.vars then r.vars[key] else ""
  }

  /** The shortform Post uses: the route variable if present, else the first form value. */
  function SuppliedShortForm(r: Request): (s: Option<string>)
    ensures s.None? <==> ShortFormKey !in r.vars && ShortFormKey !in r.form
    ensures ShortFormKey in r.vars ==> s == Some(r.vars[ShortFormKey])
    ensures ShortFormKey !in r.vars && ShortFormKey in r.form ==> s == Some(r.form[ShortFormKey][0])
  {
    if ShortFormKey in r.vars then Some(r.vars[ShortFormKey])
    else if ShortFormKey in r.form then Some(r.form[ShortFormKey][0])
    else None
  }

  /** The first description form value, "" without one. */
  function SuppliedDescription(r: Request): (d: string)
    ensures DescriptionKey !in r.form ==> d == ""
    ensures DescriptionKey in r.form ==> d == r.form[DescriptionKey][0]
  {
    if DescriptionKey in r.form then r.form[DescriptionKey][0] else ""
  }

  /** The description Post stores: the fetched one only when none was given and an attempt was asked for. */
  function StoredDescription(r: Request, get: (string, nat) -> FetchOutcome, normalizedURL: string): (d: string)
    ensures SuppliedDescription(r) != "" ==> d == SuppliedDescription(r)
    ensures AttemptKey !in r.form ==> d == SuppliedDescription(r)
    ensures SuppliedDescription(r) == "" && AttemptKey in r.form ==> d == DescriptionFrom(get, normalizedURL, 0)
  {
    if SuppliedDescription(r) == "" && AttemptKey in r.form then DescriptionFrom(get, normalizedURL, 0)
    else SuppliedDescription(r)
  }

  /** Handles all requests against one index. */
  class ShortcutHandler {
    const index: Index

    constructor (index: Index)
      ensures this.index == index
    {
      this.index := index;
    }

    /**
     * Looks up the route's shortform: a lookup error is a 500, an exact match
     * a 303 redirect to its URL, anything else the form with the partial
     * matches.
     */
    method Get(req: Request, exactFault: Option<string>, fuzzy: SearchResponse) returns (resp: Response)
      requires index.Valid()
      requires index.FromStore(fuzzy)
      ensures exactFault.Some? ==> resp == HttpError(StatusInternalServerError, exactFault.value)
      ensures exactFault.None? && Var(req, ShortFormKey) in index.docs ==>
        resp == Redirect(StatusSeeOther, index.docs[Var(req, ShortFormKey)].url)
      ensures exactFault.None? && Var(req, ShortFormKey) !in index.docs && fuzzy.SearchFailed? ==>
        resp == HttpError(StatusInternalServerError, fuzzy.error)
      ensures exactFault.None? && Var(req, ShortFormKey) !in index.docs && fuzzy.Hits? ==>
        resp.ShowForm? && resp.shortForm == Var(req, ShortFormKey) &&
        |resp.shortcuts| == |fuzzy.hits| &&
        forall i :: 0 <= i < |fuzzy.hits| ==> resp.shortcuts[i] == FromFields(fuzzy.hits[i])
      ensures resp.ShowForm? ==> forall sc :: sc in resp.shortcuts ==> sc in index.docs.Values
      ensures resp.Redirect? && RenderStable(index.codec) ==> index.codec.parse(resp.location).scheme != ""
    {
      var query := Var(req, ShortFormKey);
      var results, sole, err := index.FindShortcut(query, exactFault, fuzzy);
      if err.Some? {
        return HttpError(StatusInternalServerError, err.value);
      }
      if sole {
        if RenderStable(index.codec) {
          index.StoredUrlHasScheme(query);
        }
        return Redirect(StatusSeeOther, results[0].url);
      }
      resp := ShowForm(query, results);
    }

    /**
     * Saves the first url found under the first shortform found. The checks
     * come in this order and each failing one answers 400 without touching
     * the index: a shortform is supplied, it is not already an exact alias (a
     * failed lookup counts as not existing), a url is supplied. Otherwise the
     * answer redirects to the normalised URL, and the shortcut is added, with
     * a fetched description when none was given and an attempt was asked for.
     * `writeFault` is a failure of the engine's write, which the add discards.
     */
    method Post(req: Request, exactFault: Option<string>, fuzzy: SearchResponse,
                get: (string, nat) -> FetchOutcome, writeFault: Option<string>)
      returns (resp: Response)
      requires index.Valid()
      requires index.FromStore(fuzzy)
      modifies index
      ensures index.Valid()
      ensures SuppliedShortForm(req).None? ==>
        resp == HttpError(StatusBadRequest, "Shortcut was not supplied") && index.docs == old(index.docs)
      ensures SuppliedShortForm(req).Some? && exactFault.None? && SuppliedShortForm(req).value in old(index.docs) ==>
        resp == HttpError(StatusBadRequest, "Shortcut already exists.") && index.docs == old(index.docs)
      ensures SuppliedShortForm(req).Some? && !(exactFault.None? && SuppliedShortForm(req).value in old(index.docs)) &&
              UrlKey !in req.form ==>
        resp == HttpError(StatusBadRequest, "URL was not supplied") && index.docs == old(index.docs)
      ensures SuppliedShortForm(req).Some? && !(exactFault.None? && SuppliedShortForm(req).value in old(index.docs)) &&
              UrlKey in req.form ==>
        var shortForm := SuppliedShortForm(req).value;
        var normalizedURL := NormalizeURL(index.codec, req.form[UrlKey][0]);
        resp == Redirect(StatusSeeOther, normalizedURL) &&
        index.docs == if writeFault.Some? then old(index.docs) else old(index.docs)[shortForm :=
          Shortcut(NormalizeURL(index.codec, normalizedURL), shortForm, StoredDescription(req, get, normalizedURL))]
      ensures resp.Redirect? && writeFault.None? && RenderStable(index.codec) ==>
        SuppliedShortForm(req).Some? && index.docs[SuppliedShortForm(req).value].url == resp.location
    {
      var shortform: string;
      if ShortFormKey in req.vars {
        shortform := req.vars[ShortFormKey];
      } else {
        if ShortFormKey !in req.form {
          return HttpError(StatusBadRequest, "Shortcut was not supplied");
        }
        shortform := req.form[ShortFormKey][0];
      }

      var _, sole, _ := index.FindShortcut(shortform, exactFault, fuzzy);
      if sole {
        return HttpError(StatusBadRequest, "Shortcut already exists.");
      }

      if UrlKey !in req.form {
        return HttpError(StatusBadRequest, "URL was not supplied");
      }
      var url := req.form[UrlKey][0];

      var description := "";
      if DescriptionKey in req.form {
        description := req.form[DescriptionKey][0];
      }
      var normalizedURL := NormalizeURL(index.codec, url);
      resp := Redirect(StatusSeeOther, normalizedURL);

      if description == "" && AttemptKey in req.form {
        description := FindDescription(get, normalizedURL);
      }
      var stored := index.AddShortcut(Shortcut(normalizedURL, shortform, description), writeFault);
      if RenderStable(index.codec) {
        NormalizeURLIdempotent(index.codec, url);
      }
    }
  }

  /**
   * Post does not insist on a non-empty shortform: it accepts the form value
   * `shortform=` and redirects. The write under the empty document id that
   * follows is the engine's to accept or reject (`writeFault`); the add
   * discards a rejection, and then nothing is stored.
   */
  method PostEmptyShortForm(codec: UrlCodec, get: (string, nat) -> FetchOutcome, writeFault: Option<string>)
    returns (resp: Response, stored: bool)
    ensures resp == Redirect(StatusSeeOther, NormalizeURL(codec, "example.org"))
    ensures stored <==> writeFault.None?
  {
    var index := new Index(codec);
    var handler := new ShortcutHandler(index);
    var req := Request(map[], map[ShortFormKey := [""], UrlKey := ["example.org"]]);
    resp := handler.Post(req, None, Hits([]), get, writeFault);
    stored := "" in index.docs;
  }
}

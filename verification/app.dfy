/**
 * The search page component (src/App.js) without its rendering: the state it
 * keeps (search term, media type, results, favourites, error, loading flag),
 * the search request step, and the favourites toggle.
 */
module App {
  import opened Wrappers
  import opened Text
  import opened UriComponent
  import opened QueryString
  import opened Favorites

  /** The catalogue search endpoint the page calls directly. */
  const ItunesApiUrl := "https://itunes.apple.com/search"

  /** The options of the media type selector; the page can hold no other value. */
  datatype MediaType = All | Movie | Podcast | Music | Audiobook | ShortFilm | TvShow | Software | Ebook {
    /** The option's `value` attribute. */
    function Value(): (v: string)
      ensures forall i :: 0 <= i < |v| ==> Unreserved(v[i])
    {
      match this
      case All => "all"
      case Movie => "movie"
      case Podcast => "podcast"
      case Music => "music"
      case Audiobook => "audiobook"
      case ShortFilm => "shortFilm"
      case TvShow => "tvShow"
      case Software => "software"
      case Ebook => "ebook"
    }
  }

  /** The parameters the page asks for, in the order it writes them. */
  function SearchParameters(term: string, mediaType: MediaType): seq<string> {
    ["term=" + EncodeURIComponent(term)]
    + (if mediaType == All then [] else ["media=" + mediaType.Value()])
    + ["limit=20"]
  }

  /**
   * The request URL: the encoded term, `media` unless the type is `all`, and a
   * limit of 20. It is the endpoint, `?`, then those parameters joined by `&`.
   */
  function SearchUrl(term: string, mediaType: MediaType): (url: string)
    ensures url == ItunesApiUrl + "?" + Join(SearchParameters(term, mediaType), '&')
  {
    var encoded := EncodeURIComponent(term);
    var mediaParam := if mediaType == All then "" else "&media=" + mediaType.Value();
    ConcatShape(ItunesApiUrl, encoded, mediaParam);
    if mediaType == All then
      QueryShapeAll(encoded);
      ItunesApiUrl + "?term=" + encoded + mediaParam + "&limit=20"
    else
      QueryShapeMedia(encoded, mediaType.Value());
      ItunesApiUrl + "?term=" + encoded + mediaParam + "&limit=20"
  }

  /**
   * Read back, the request URL carries exactly the term, the media type when
   * it is not `all`, and the limit 20; the term decodes to what the user typed.
   */
  lemma SearchUrlParameters(term: string, mediaType: MediaType)
    ensures QueryParameters(SearchUrl(term, mediaType)) == SearchParameters(term, mediaType)
    ensures DecodeURIComponent(SearchParameters(term, mediaType)[0][|"term="|..]) == Some(term)
  {
    var parameters := SearchParameters(term, mediaType);
    ParametersAreClean(term, mediaType);
    QueryOfBuiltUrl(ItunesApiUrl, parameters);
    assert parameters[0][|"term="|..] == EncodeURIComponent(term);
    DecodeEncode(term);
  }

  lemma ParametersAreClean(term: string, mediaType: MediaType)
    ensures forall i :: 0 <= i < |SearchParameters(term, mediaType)| ==> Clean(SearchParameters(term, mediaType)[i])
  {
    var termParam := "term=" + EncodeURIComponent(term);
    EncodedIsClean(term);
    CleanConcat("term=", EncodeURIComponent(term));
    assert Clean("limit=20");
    if mediaType == All {
      assert SearchParameters(term, mediaType) == [termParam, "limit=20"];
    } else {
      MediaParamIsClean(mediaType);
      assert SearchParameters(term, mediaType) == [termParam, "media=" + mediaType.Value(), "limit=20"];
    }
  }

  lemma MediaParamIsClean(mediaType: MediaType)
    ensures Clean("media=" + mediaType.Value())
  {
    var v := mediaType.Value();
    assert !Unreserved('&') && !Unreserved('#');
    assert Clean(v);
    CleanConcat("media=", v);
  }

  lemma QueryShapeAll(encoded: string)
    ensures "term=" + encoded + "" + "&limit=20" == Join(["term=" + encoded] + [] + ["limit=20"], '&')
  {
    JoinTwo("term=" + encoded, "limit=20", '&');
    assert ["term=" + encoded] + [] + ["limit=20"] == ["term=" + encoded, "limit=20"];
  }

  lemma QueryShapeMedia(encoded: string, media: string)
    ensures "term=" + encoded + ("&media=" + media) + "&limit=20"
         == Join(["term=" + encoded] + ["media=" + media] + ["limit=20"], '&')
  {
    var first, second := "term=" + encoded, "media=" + media;
    assert "&media=" + media == ['&'] + second;
    assert "&limit=20" == ['&'] + "limit=20";
    JoinThree(first, second, "limit=20", '&');
    assert [first] + [second] + ["limit=20"] == [first, second, "limit=20"];
  }

  lemma ConcatShape(base: string, encoded: string, mediaParam: string)
    ensures base + "?term=" + encoded + mediaParam + "&limit=20"
         == base + "?" + ("term=" + encoded + mediaParam + "&limit=20")
  {
    assert "?term=" == "?" + "term=";
  }

  /** What the catalogue request comes to, as the page sees it. */
  datatype FetchOutcome =
    | Ok(results: Option<seq<Item>>)   // `response.ok`; the body's `results`, None when absent or null
    | NotOk                            // a response whose status is not 2xx
    | Threw(message: string)           // fetch or JSON parsing threw an error with this message

  /** The message the page shows when the response is not OK. */
  const NotOkMessage := "Failed to fetch search results"

  /** The state of the search page. */
  class SearchPage {
    var searchTerm: string
    var mediaType: MediaType
    var results: seq<Item>
    var favorites: seq<Item>
    var error: Option<string>
    var loading: bool

    /** The page keeps at most one favourite per `trackId`. */
    ghost predicate Valid()
      reads this
    {
      UniqueKeys(favorites)
    }

    /** The initial state: empty term, type `all`, nothing found, no favourites, no error, not loading. */
    constructor ()
      ensures Valid()
      ensures searchTerm == "" && mediaType == All && results == [] && favorites == []
      ensures error == None && !loading
    {
      searchTerm := "";
      mediaType := All;
      results := [];
      favorites := [];
      error := None;
      loading := false;
    }

    /** The search box's change handler. */
    method SetSearchTerm(value: string)
      requires Valid()
      modifies this
      ensures Valid()
      ensures searchTerm == value
      ensures mediaType == old(mediaType) && results == old(results) && favorites == old(favorites)
      ensures error == old(error) && loading == old(loading)
    {
      searchTerm := value;
    }

    /** The media selector's change handler. */
    method SetMediaType(value: MediaType)
      requires Valid()
      modifies this
      ensures Valid()
      ensures mediaType == value
      ensures searchTerm == old(searchTerm) && results == old(results) && favorites == old(favorites)
      ensures error == old(error) && loading == old(loading)
    {
      mediaType := value;
    }

    /**
     * One search, from submit to the end of the `finally` block, with the
     * catalogue's answer to each URL given by `fetch`. `requested` is the URL
     * fetched, None when the blank-term guard returned first.
     */
    method HandleSearch(fetch: string -> FetchOutcome) returns (requested: Option<string>)
      requires Valid()
      modifies this
      ensures Valid()
      ensures searchTerm == old(searchTerm) && mediaType == old(mediaType) && favorites == old(favorites)
      ensures Trim(searchTerm) == [] <==> requested == None
      ensures Trim(searchTerm) == [] ==>
        results == old(results) && error == old(error) && loading == old(loading)
      ensures Trim(searchTerm) != [] ==>
        requested == Some(SearchUrl(searchTerm, mediaType)) && Settled(fetch(requested.value))
    {
      if Trim(searchTerm) == [] {
        return None;
      }
      var url := SearchUrl(searchTerm, mediaType);
      TakeAnswer(url, fetch);
      requested := Some(url);
    }

    /** The page state once the answer to a request has been taken in and `loading` is reset. */
    ghost predicate Settled(outcome: FetchOutcome)
      reads this
    {
      !loading
      && match outcome
         case Ok(found) => error == None && results == (if found.Some? then found.value else [])
         case NotOk => error == Some(NotOkMessage) && results == []
         case Threw(message) => error == Some(message) && results == []
    }

    /** The `try`/`catch`/`finally` part of the search step, for a request to `url`. */
    method TakeAnswer(url: string, fetch: string -> FetchOutcome)
      requires Valid()
      modifies this
      ensures Valid()
      ensures searchTerm == old(searchTerm) && mediaType == old(mediaType) && favorites == old(favorites)
      ensures Settled(fetch(url))
    {
      error := None;
      loading := true;
      match fetch(url) {
        case Ok(found) =>
          results := if found.Some? then found.value else [];
        case NotOk =>
          error := Some(NotOkMessage);
          results := [];
        case Threw(message) =>
          error := Some(message);
          results := [];
      }
      loading := false;
    }

    /** Adds `item` to the favourites, or removes every favourite with its `trackId`. */
    method ToggleFavorite(item: Item)
      requires Valid()
      modifies this
      ensures Valid()
      ensures favorites == Toggle(old(favorites), item)
      ensures IsFavorite(favorites, item) == !IsFavorite(old(favorites), item)
      ensures searchTerm == old(searchTerm) && mediaType == old(mediaType) && results == old(results)
      ensures error == old(error) && loading == old(loading)
    {
      ToggleKeepsUnique(favorites, item);
      ToggleFlips(favorites, item);
      favorites := Toggle(favorites, item);
    }
  }
}

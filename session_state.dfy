/** `main`: the two session keys `anime_data` and `synopsis`, and what a run
    of the script does to them when the search button was pressed, when the
    generate button was pressed, and when neither was. */
module SessionState {
  import opened Records
  import opened SearchClient
  import opened SynopsisGenerator

  /** An outbound call to one of the two services. */
  datatype Request = SearchRequest(title: string) | GenerationRequest(prompt: string)

  /** What a run shows under the search box: the hit's block, and under it
      the generated synopsis. */
  datatype View = View(anime: Option<AnimeRecord>, synopsis: Option<string>)

  /** `st.session_state` as `main` uses it. A key never set and a key set to
      None read the same in every test `main` makes of them, so both are None. */
  class Session {
    var animeData: Option<AnimeRecord>
    var synopsis: Option<string>
    /** The hit the stored synopsis was generated from. */
    ghost var synopsisFor: Option<AnimeRecord>
    /** Every call made to the two services, oldest first. */
    ghost var requests: seq<Request>

    /** A stored synopsis always belongs to the stored hit: a synopsis of
        an earlier search is never kept beside a later one. */
    ghost predicate Valid()
      reads this
    {
      synopsis.Some? ==> animeData.Some? && synopsisFor == animeData
    }

    /** A new session: no key set, nothing requested. */
    constructor ()
      ensures Valid()
      ensures animeData == None && synopsis == None && requests == []
    {
      animeData, synopsis := None, None;
      synopsisFor, requests := None, [];
    }

    /** A run with no button pressed: the hit comes from the state alone and
        no service is called; the stored synopsis is shown under it when it
        is a non-empty string. Nothing is changed. */
    method Render() returns (v: View)
      requires Valid()
      ensures v.anime == animeData
      ensures v.synopsis.Some? <==> animeData.Some? && synopsis.Some? && synopsis.value != []
      ensures v.synopsis.Some? ==> v.synopsis == synopsis && synopsisFor == v.anime
    {
      var anime := animeData;
      var shown: Option<string> := None;
      if anime.Some? {
        var stored := synopsis;
        if stored.Some? && stored.value != [] {
          shown := stored;
        }
      }
      v := View(anime, shown);
    }

    /** The search button: one call to the search service for `title`,
        whose decoded answer is `payload`. The hit, or None, replaces the
        stored one and the stored synopsis is cleared, whatever the state
        was before. */
    method Search(title: string, payload: Payload) returns (v: View)
      requires Valid()
      modifies this
      ensures Valid()
      ensures animeData == SelectResult(payload) && synopsis == None
      ensures requests == old(requests) + [SearchRequest(title)]
      ensures v == View(animeData, None)
    {
      requests := requests + [SearchRequest(title)];
      animeData := SelectResult(payload);
      synopsis := None;
      v := Render();
    }

    /** The generate button, which is only on the page while a hit is shown:
        one call to the generation service with the stored hit's prompt; the
        synopsis it yields replaces the stored one and the hit is kept. */
    method Generate(service: string -> Reply) returns (v: View)
      requires Valid() && animeData.Some?
      modifies this
      ensures Valid()
      ensures animeData == old(animeData)
      ensures synopsis == Some(GenerateSynopsis(animeData, service).text)
      ensures synopsisFor == animeData
      ensures requests == old(requests) + [GenerationRequest(BuildPrompt(animeData.value))]
      ensures v.anime == animeData
      ensures v.synopsis.Some? <==> synopsis.value != []
      ensures v.synopsis.Some? ==> v.synopsis == synopsis
    {
      var g := GenerateSynopsis(animeData, service);
      requests := requests + [GenerationRequest(g.request.value)];
      synopsis := Some(g.text);
      synopsisFor := animeData;
      v := Render();
    }
  }

  /** Search, Generate, then Search again: after the second search its own
      result is shown and no synopsis is stored or shown, whether or not it
      found anything. */
  method SearchClearsSynopsis(title: string, payload: Payload, service: string -> Reply,
                              title': string, payload': Payload)
    returns (anime: Option<AnimeRecord>, stored: Option<string>, shown: Option<string>)
    requires SelectResult(payload).Some?
    ensures anime == SelectResult(payload')
    ensures stored == None && shown == None
  {
    var session := new Session();
    var _ := session.Search(title, payload);
    var _ := session.Generate(service);
    var v := session.Search(title', payload');
    anime, stored, shown := v.anime, session.synopsis, v.synopsis;
  }

  /** Generating twice for the same hit from a service that answers the
      same prompt the same way stores the same synopsis both times. */
  method GenerateTwice(title: string, payload: Payload, service: string -> Reply)
    returns (first: Option<string>, second: Option<string>)
    requires SelectResult(payload).Some?
    ensures first.Some? && first == second
  {
    var session := new Session();
    var _ := session.Search(title, payload);
    var _ := session.Generate(service);
    first := session.synopsis;
    var _ := session.Generate(service);
    second := session.synopsis;
  }
}

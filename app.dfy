/**
 * The view state of App.tsx as an object. Its fields are the component's
 * `useState` variables; each handler is a method. An `async` handler is split
 * at its `await`: `Begin…` runs the statements before it, and
 * `Complete…Success` or `Complete…Failure` runs the statements after it
 * together with the `finally` block. `HandleSearch` and `HandleActorClick`
 * run both halves in sequence around the service call.
 */
module App {
  import opened Wrappers
  import opened Types
  import opened JsString
  import GeminiService

  const UnknownErrorMessage: string := "An unknown error occurred."
  const ActorFallbackMessage: string := "No se pudo obtener la información del actor."

  /** `message || fallback`: an empty message is replaced by the fallback. */
  function OrDefault(message: string, fallback: string): (r: string)
    requires fallback != ""
    ensures r != ""
    ensures message != "" ==> r == message
    ensures message == "" ==> r == fallback
  {
    if message == "" then fallback else message
  }

  /** The series group of the state: the search box, the result, its sources, the flags. */
  datatype SeriesView = SeriesView(
    query: string,
    seriesInfo: Option<SeriesInfo>,
    sources: seq<GroundingChunk>,
    isLoading: bool,
    error: Option<string>)

  /** The actor group of the state: the modal's actor and what is known about them. */
  datatype ActorView = ActorView(
    selectedActor: Option<string>,
    actorInfo: Option<ActorInfo>,
    isActorLoading: bool,
    actorError: Option<string>)

  class AppState {
    var query: string
    var seriesInfo: Option<SeriesInfo>
    var sources: seq<GroundingChunk>
    var isLoading: bool
    var error: Option<string>

    var selectedActor: Option<string>
    var actorInfo: Option<ActorInfo>
    var isActorLoading: bool
    var actorError: Option<string>

    function Series(): SeriesView
      reads this
    {
      SeriesView(query, seriesInfo, sources, isLoading, error)
    }

    function Actor(): ActorView
      reads this
    {
      ActorView(selectedActor, actorInfo, isActorLoading, actorError)
    }

    /**
     * What the handlers maintain: a stored error message is never empty; an
     * error and a result are never both present; a pending lookup has cleared
     * its result and its error.
     */
    ghost predicate Valid()
      reads this
    {
      && (error.Some? ==> error.value != "")
      && (actorError.Some? ==> actorError.value != "")
      && !(error.Some? && seriesInfo.Some?)
      && !(actorError.Some? && actorInfo.Some?)
      && (isLoading ==> error.None? && seriesInfo.None? && sources == [])
      && (isActorLoading ==> actorError.None? && actorInfo.None?)
    }

    /** The initial values passed to `useState`. */
    constructor ()
      ensures Valid()
      ensures Series() == SeriesView("", None, [], false, None)
      ensures Actor() == ActorView(None, None, false, None)
    {
      query, seriesInfo, sources, isLoading, error := "", None, [], false, None;
      selectedActor, actorInfo, isActorLoading, actorError := None, None, false, None;
    }

    /** The loading spinner is rendered. */
    predicate ShowsSpinner()
      reads this
    {
      isLoading
    }

    /** The error banner is rendered: `error` is a non-empty string. */
    predicate ShowsError()
      reads this
    {
      error.Some? && error.value != ""
    }

    /** The series card is rendered. */
    predicate ShowsSeriesCard()
      reads this
    {
      seriesInfo.Some?
    }

    /** The "ready to search" prompt is rendered: `!isLoading && !error && !seriesInfo`. */
    predicate ShowsIdlePrompt()
      reads this
    {
      !isLoading && !ShowsError() && seriesInfo.None?
    }

    /** The actor modal is rendered: `selectedActor` is a non-empty string. */
    predicate ShowsActorModal()
      reads this
    {
      selectedActor.Some? && selectedActor.value != ""
    }

    /**
     * `handleSearch` up to its `await`: a term that trims to nothing changes
     * nothing; otherwise the search starts loading and clears the error, the
     * result and the sources. The actor group is untouched.
     */
    method BeginSearch(searchTerm: string) returns (started: bool)
      requires Valid()
      modifies this
      ensures Valid()
      ensures started <==> Trim(searchTerm) != ""
      ensures !started ==> Series() == old(Series())
      ensures started ==> Series() == SeriesView(old(query), None, [], true, None)
      ensures Actor() == old(Actor())
    {
      if Trim(searchTerm) == "" {
        return false;
      }
      isLoading := true;
      error := None;
      seriesInfo := None;
      sources := [];
      started := true;
    }

    /** The rest of `handleSearch` when the fetch resolved: store the result and stop loading. */
    method CompleteSearchSuccess(result: GeminiService.SeriesResult)
      requires Valid() && isLoading
      modifies this
      ensures Valid()
      ensures Series() == SeriesView(old(query), result.seriesInfo, result.sources, false, None)
      ensures Actor() == old(Actor())
    {
      seriesInfo := result.seriesInfo;
      sources := result.sources;
      isLoading := false;
    }

    /** The rest of `handleSearch` when the fetch threw: store the message (or the fallback) and stop loading. */
    method CompleteSearchFailure(message: string)
      requires Valid() && isLoading
      modifies this
      ensures Valid()
      ensures Series() == SeriesView(old(query), None, [], false, Some(OrDefault(message, UnknownErrorMessage)))
      ensures Actor() == old(Actor())
    {
      error := Some(OrDefault(message, UnknownErrorMessage));
      isLoading := false;
    }

    /**
     * `handleSearch(searchTerm)` run to completion against the service, with
     * the model requests it sent. A blank term sends none. Once it has run,
     * exactly one of the error banner, the series card and the idle prompt is
     * shown, and the actor group is as it was.
     */
    method HandleSearch(searchTerm: string, apiKey: Option<string>, generate: GeminiService.Generate,
                        parse: GeminiService.JsonParse<SeriesInfo>)
      returns (requests: seq<GeminiService.Request>)
      requires Valid()
      modifies this
      ensures Valid()
      ensures Trim(searchTerm) == "" ==> requests == [] && Series() == old(Series())
      ensures Trim(searchTerm) != "" ==>
        requests == GeminiService.FetchSeriesInfo(apiKey, searchTerm, generate, parse).requests
      ensures Trim(searchTerm) != "" ==>
        match GeminiService.FetchSeriesInfo(apiKey, searchTerm, generate, parse).outcome
        case Success(r) => Series() == SeriesView(old(query), r.seriesInfo, r.sources, false, None)
        case Failure(m) => Series() == SeriesView(old(query), None, [], false, Some(OrDefault(m, UnknownErrorMessage)))
      ensures Trim(searchTerm) != "" ==> !ShowsSpinner()
      ensures Actor() == old(Actor())
    {
      requests := [];
      var started := BeginSearch(searchTerm);
      if started {
        var call := GeminiService.FetchSeriesInfo(apiKey, searchTerm, generate, parse);
        requests := call.requests;
        match call.outcome {
          case Success(r) => CompleteSearchSuccess(r);
          case Failure(m) => CompleteSearchFailure(m);
        }
      }
    }

    /**
     * `handleActorClick` up to its `await`: select the actor, start loading,
     * clear the actor's error and information. The series group is untouched.
     */
    method BeginActorLookup(actorName: string)
      requires Valid()
      modifies this
      ensures Valid()
      ensures Actor() == ActorView(Some(actorName), None, true, None)
      ensures Series() == old(Series())
    {
      selectedActor := Some(actorName);
      isActorLoading := true;
      actorError := None;
      actorInfo := None;
    }

    /** The rest of `handleActorClick` when the fetch resolved: store the information and stop loading. */
    method CompleteActorLookupSuccess(info: Option<ActorInfo>)
      requires Valid() && isActorLoading
      modifies this
      ensures Valid()
      ensures Actor() == ActorView(old(selectedActor), info, false, None)
      ensures Series() == old(Series())
    {
      actorInfo := info;
      isActorLoading := false;
    }

    /** The rest of `handleActorClick` when the fetch threw: store the message (or the fallback) and stop loading. */
    method CompleteActorLookupFailure(message: string)
      requires Valid() && isActorLoading
      modifies this
      ensures Valid()
      ensures Actor() == ActorView(old(selectedActor), None, false, Some(OrDefault(message, ActorFallbackMessage)))
      ensures Series() == old(Series())
    {
      actorError := Some(OrDefault(message, ActorFallbackMessage));
      isActorLoading := false;
    }

    /** `handleActorClick(actorName)` run to completion against the service, with the model requests it sent. */
    method HandleActorClick(actorName: string, apiKey: Option<string>, generate: GeminiService.Generate,
                            parse: GeminiService.JsonParse<ActorInfo>)
      returns (requests: seq<GeminiService.Request>)
      requires Valid()
      modifies this
      ensures Valid()
      ensures requests == GeminiService.FetchActorInfo(apiKey, actorName, generate, parse).requests
      ensures
        match GeminiService.FetchActorInfo(apiKey, actorName, generate, parse).outcome
        case Success(info) => Actor() == ActorView(Some(actorName), info, false, None)
        case Failure(m) => Actor() == ActorView(Some(actorName), None, false, Some(OrDefault(m, ActorFallbackMessage)))
      ensures Series() == old(Series())
    {
      BeginActorLookup(actorName);
      var call := GeminiService.FetchActorInfo(apiKey, actorName, generate, parse);
      requests := call.requests;
      match call.outcome {
        case Success(info) => CompleteActorLookupSuccess(info);
        case Failure(m) => CompleteActorLookupFailure(m);
      }
    }

    /**
     * `handleCloseModal`: forget the selected actor, their information and
     * their error. The loading flag and the whole series group stay as they are.
     */
    method HandleCloseModal()
      requires Valid()
      modifies this
      ensures Valid()
      ensures Actor() == ActorView(None, None, old(isActorLoading), None)
      ensures !ShowsActorModal()
      ensures Series() == old(Series())
    {
      selectedActor := None;
      actorInfo := None;
      actorError := None;
    }

    /**
     * `handleSeriesSelect(seriesName)`: close the modal, put the name in the
     * search box, then begin a search for it.
     */
    method HandleSeriesSelect(seriesName: string) returns (started: bool)
      requires Valid()
      modifies this
      ensures Valid()
      ensures Actor() == ActorView(None, None, old(isActorLoading), None)
      ensures started <==> Trim(seriesName) != ""
      ensures started ==> Series() == SeriesView(seriesName, None, [], true, None)
      ensures !started ==> Series() == old(Series()).(query := seriesName)
    {
      HandleCloseModal();
      query := seriesName;
      started := BeginSearch(seriesName);
    }
  }

  /** In every state the handlers reach, exactly one of spinner, error banner, series card and idle prompt is shown. */
  lemma DisplayExactlyOne(app: AppState)
    requires app.Valid()
    ensures app.ShowsSpinner() ==> !app.ShowsError() && !app.ShowsSeriesCard() && !app.ShowsIdlePrompt()
    ensures !app.ShowsSpinner() ==>
      || (app.ShowsError() && !app.ShowsSeriesCard() && !app.ShowsIdlePrompt())
      || (!app.ShowsError() && app.ShowsSeriesCard() && !app.ShowsIdlePrompt())
      || (!app.ShowsError() && !app.ShowsSeriesCard() && app.ShowsIdlePrompt())
  {
  }
}

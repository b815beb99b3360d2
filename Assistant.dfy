/**
 * V2/assistant.py: the voice assistant's four-state cycle.  What the
 * speech recogniser, the GPT handler and the keyboard return are
 * parameters; speaking is returned as the text that would be spoken.  The
 * globe object receives its background at start-up and every location
 * update through `process_location_data`, whose trigonometry (`ColumnPosition`,
 * `Near`) and socket result are parameters.
 */
module Assistant {
  import opened Options
  import opened Json
  import opened LedFrame
  import GV = GlobeVisualization

  datatype State = Idle | Listening | Processing | Responding

  /** What `gpt_handler.get_response` did: returned a pair, or raised with a message. */
  datatype GptOutcome = GptAnswer(locationData: Json, answer: string) | GptError(message: string)

  /** Everything the collaborators report during one call of a handler. */
  datatype Inputs = Inputs(
    wakeDetected: bool,
    voiceQuery: Option<string>,
    typedQuery: string,
    gpt: GptOutcome,
    globeDelivered: bool)

  /**
   * What one handler call produced that leaves the assistant: the text
   * spoken (None when text-to-speech is unavailable), the location data
   * handed to the globe and what `process_location_data` returned.
   */
  datatype Effect = Nothing | Exit | Spoken(text: Option<string>, globeUpdate: Option<Json>, globeOk: bool)

  /** The query used by the listening state: the recognised text, or the typed line when that is missing or empty. */
  function Query(inputs: Inputs): string
  {
    if inputs.voiceQuery.Some? && inputs.voiceQuery.value != [] then inputs.voiceQuery.value else inputs.typedQuery
  }

  /** The next state after one handler call, None when the assistant exits. */
  function Next(s: State, inputs: Inputs): Option<State>
  {
    match s
    case Idle => Some(if inputs.wakeDetected then Listening else Idle)
    case Listening => if Lower(Query(inputs)) == "exit" then None else Some(Processing)
    case Processing => Some(Responding)
    case Responding => Some(Idle)
  }

  /** Input that wakes the assistant and asks a question. */
  predicate Cooperative(inputs: Inputs)
  {
    inputs.wakeDetected && Lower(Query(inputs)) != "exit"
  }

  /**
   * The cycle: from any state, four handler calls with a wake word and a
   * question other than "exit" come back to the same state, passing through
   * all four states.
   */
  lemma FullCycle(s: State, i1: Inputs, i2: Inputs, i3: Inputs, i4: Inputs)
    requires Cooperative(i1) && Cooperative(i2) && Cooperative(i3) && Cooperative(i4)
    ensures Next(s, i1).Some?
    ensures Next(Next(s, i1).value, i2).Some?
    ensures Next(Next(Next(s, i1).value, i2).value, i3).Some?
    ensures Next(Next(Next(Next(s, i1).value, i2).value, i3).value, i4) == Some(s)
    ensures {s, Next(s, i1).value, Next(Next(s, i1).value, i2).value, Next(Next(Next(s, i1).value, i2).value, i3).value}
              == {Idle, Listening, Processing, Responding}
  {
  }

  const FALLBACK_PREFIX: string := "You asked: '"
  const FALLBACK_SUFFIX: string := "'. I'm sorry, but I can't provide a detailed answer right now."
  const ERROR_PREFIX: string := "I'm sorry, I encountered an error processing your request: "
  /** The dim blue the globe's later frames start from. */
  const GLOBE_BACKGROUND: Rgb := Rgb(5, 5, 15)

  class Assistant {
    var state: State
    /** `current_query`; None until the first question. */
    var currentQuery: Option<string>
    /** `location_data`; None until the first processing, `JNull` for Python's None. */
    var locationData: Option<Json>
    /** `response`; None until the first processing. */
    var response: Option<string>
    const gptAvailable: bool
    const ttsAvailable: bool
    const globeAvailable: bool
    /** The globe visualisation, when its construction succeeded. */
    const globe: GV.Globe?

    /**
     * The attributes each state reads have been set by the states before it,
     * and the globe is available exactly when it was constructed.
     */
    predicate Valid()
      reads this
    {
      (state == Processing ==> currentQuery.Some?) &&
      (state == Responding ==> response.Some?) &&
      (globeAvailable <==> globe != null)
    }

    /**
     * A new assistant starts idle; which collaborators came up is a
     * parameter, and `globe` is null when constructing the visualisation
     * raised.  A globe that came up gets the dim blue background.
     */
    constructor(gpt: bool, tts: bool, globe: GV.Globe?)
      modifies globe
      ensures state == Idle && currentQuery.None? && locationData.None? && response.None?
      ensures gptAvailable == gpt && ttsAvailable == tts
      ensures this.globe == globe && (globeAvailable <==> globe != null)
      ensures globe != null ==>
                globe.defaultBackground == GLOBE_BACKGROUND &&
                globe.currentLedData == old(globe.currentLedData) && globe.handedOff == old(globe.handedOff)
      ensures Valid()
    {
      state := Idle;
      currentQuery := None;
      locationData := None;
      response := None;
      gptAvailable := gpt;
      ttsAvailable := tts;
      globeAvailable := globe != null;
      this.globe := globe;
      new;
      if globe != null {
        globe.SetBackground(GLOBE_BACKGROUND);
      }
    }

    /** `handle_idle_state`: to LISTENING only on a wake word. */
    method HandleIdle(wakeDetected: bool)
      requires state == Idle
      modifies this
      ensures state == (if wakeDetected then Listening else Idle)
      ensures currentQuery == old(currentQuery) && locationData == old(locationData) && response == old(response)
    {
      if wakeDetected {
        state := Listening;
      }
    }

    /** `handle_listening_state`: "exit" in any letter case ends the program; any other query is stored. */
    method HandleListening(voiceQuery: Option<string>, typedQuery: string) returns (exited: bool)
      requires state == Listening
      modifies this
      ensures var query := if voiceQuery.Some? && voiceQuery.value != [] then voiceQuery.value else typedQuery;
        exited <==> Lower(query) == "exit"
      ensures exited ==> state == old(state) && currentQuery == old(currentQuery)
      ensures !exited ==> state == Processing && currentQuery.Some? &&
                          currentQuery.value == (if voiceQuery.Some? && voiceQuery.value != [] then voiceQuery.value else typedQuery)
      ensures locationData == old(locationData) && response == old(response)
    {
      var query := if voiceQuery.Some? && voiceQuery.value != [] then voiceQuery.value else typedQuery;
      if Lower(query) == "exit" {
        return true;
      }
      currentQuery := Some(query);
      state := Processing;
      return false;
    }

    /**
     * `handle_processing_state`: always to RESPONDING.  The location data is
     * GPT's when it answered and Python's None when it raised or is unavailable.
     */
    method HandleProcessing(gpt: GptOutcome)
      requires state == Processing && currentQuery.Some?
      modifies this
      ensures state == Responding && response.Some?
      ensures gptAvailable && gpt.GptAnswer? ==> locationData == Some(gpt.locationData) && response == Some(gpt.answer)
      ensures gptAvailable && gpt.GptError? ==> locationData == Some(JNull) && response == Some(ERROR_PREFIX + gpt.message)
      ensures !gptAvailable ==> locationData == Some(JNull) &&
                                response == Some(FALLBACK_PREFIX + old(currentQuery).value + FALLBACK_SUFFIX)
      ensures currentQuery == old(currentQuery)
    {
      if gptAvailable {
        match gpt {
          case GptAnswer(data, answer) => {
            locationData := Some(data);
            response := Some(answer);
          }
          case GptError(message) => {
            response := Some(ERROR_PREFIX + message);
            locationData := Some(JNull);
          }
        }
      } else {
        response := Some(FALLBACK_PREFIX + currentQuery.value + FALLBACK_SUFFIX);
        locationData := Some(JNull);
      }
      state := Responding;
    }

    /**
     * `handle_responding_state`: speak when text-to-speech is up, hand the
     * location data to the globe's `process_location_data` only when it is
     * set, truthy and the globe is up, and return to IDLE.
     */
    method HandleResponding(colPos: GV.ColumnPosition, near: GV.Near, delivered: bool)
      returns (spoken: Option<string>, globeUpdate: Option<Json>, globeOk: bool)
      requires state == Responding && response.Some?
      requires globeAvailable ==> globe != null
      modifies this, globe
      ensures state == Idle
      ensures spoken == (if ttsAvailable then response else None)
      ensures globeUpdate.Some? <==> locationData.Some? && Truthy(locationData.value) && globeAvailable
      ensures globeUpdate.Some? ==> globeUpdate == locationData &&
                                    globe.LocationProcessed(globeUpdate.value, colPos, near, delivered, globeOk)
      ensures globeUpdate.None? ==> !globeOk && (globe != null ==> unchanged(globe))
      ensures currentQuery == old(currentQuery) && locationData == old(locationData) && response == old(response)
    {
      globeUpdate, globeOk := None, false;
      if locationData.Some? && Truthy(locationData.value) && globeAvailable {
        globeUpdate := locationData;
        globeOk := globe.ProcessLocationData(locationData.value, colPos, near, delivered);
      }
      spoken := if ttsAvailable then response else None;
      state := Idle;
    }

    /** One turn of `run`: the handler for the current state. */
    method Step(inputs: Inputs, colPos: GV.ColumnPosition, near: GV.Near) returns (effect: Effect)
      requires Valid()
      modifies this, globe
      ensures effect == Exit <==> Next(old(state), inputs).None?
      ensures effect != Exit ==> Valid() && Next(old(state), inputs) == Some(state)
      ensures effect.Spoken? <==> old(state) == Responding
      ensures effect.Spoken? ==> effect.text == (if ttsAvailable then old(response) else None)
      ensures effect.Spoken? && effect.globeUpdate.Some? ==>
                globeAvailable && Truthy(effect.globeUpdate.value) &&
                globe.LocationProcessed(effect.globeUpdate.value, colPos, near, inputs.globeDelivered, effect.globeOk)
      ensures !(effect.Spoken? && effect.globeUpdate.Some?) && globe != null ==> unchanged(globe)
    {
      match state {
        case Idle => {
          HandleIdle(inputs.wakeDetected);
          effect := Nothing;
        }
        case Listening => {
          var exited := HandleListening(inputs.voiceQuery, inputs.typedQuery);
          effect := if exited then Exit else Nothing;
        }
        case Processing => {
          HandleProcessing(inputs.gpt);
          effect := Nothing;
        }
        case Responding => {
          var spoken, update, ok := HandleResponding(colPos, near, inputs.globeDelivered);
          effect := Spoken(spoken, update, ok);
        }
      }
    }

    /** `run` over a finite series of handler inputs, stopping early on "exit". */
    method Run(inputs: seq<Inputs>, colPos: GV.ColumnPosition, near: GV.Near) returns (effects: seq<Effect>)
      requires Valid()
      modifies this, globe
      ensures |effects| <= |inputs|
      ensures |effects| < |inputs| ==> |effects| > 0 && effects[|effects| - 1] == Exit
      ensures forall k :: 0 <= k < |effects| - 1 ==> effects[k] != Exit
      ensures (|effects| == |inputs| && (|effects| == 0 || effects[|effects| - 1] != Exit)) ==> Valid()
    {
      effects := [];
      var k := 0;
      while k < |inputs|
        invariant 0 <= k <= |inputs| && |effects| == k
        invariant Valid()
        invariant forall j :: 0 <= j < k ==> effects[j] != Exit
      {
        var e := Step(inputs[k], colPos, near);
        effects := effects + [e];
        if e == Exit {
          return;
        }
        k := k + 1;
      }
    }
  }
}

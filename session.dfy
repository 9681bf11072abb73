/** The realtime session of the page script (`main.js`): the module-level
    flags, the handlers the client and the buttons call, the messages they
    send to the client and the devices they stop. */
module Realtime {
  import opened Common

  /** One part of a model turn. `functionCall` and `functionResponse` are
      tested for truthiness only; `text` is joined into the logged reply. */
  datatype Part = Part(functionCall: Json, functionResponse: Json, text: Json)

  /** A `content` message; `modelTurn` is absent or holds its parts. */
  datatype Content = Content(modelTurn: Option<seq<Part>>)

  /** The client events that touch `isUsingTool`. */
  datatype Event = ContentEvent(content: Content) | Interrupted | TurnComplete

  /** `parts.some(part => part.functionCall)`. */
  predicate HasCall(parts: seq<Part>) {
    exists i | 0 <= i < |parts| :: Truthy(parts[i].functionCall)
  }

  /** `parts.some(part => part.functionResponse)`. */
  predicate HasResponse(parts: seq<Part>) {
    exists i | 0 <= i < |parts| :: Truthy(parts[i].functionResponse)
  }

  /** The `isUsingTool` flag after one event. A call wins over a response in
      the same message, because the response test sits in an `else if`. */
  function Step(flag: bool, e: Event): (r: bool)
    ensures r && !flag ==> e.ContentEvent? && e.content.modelTurn.Some? && HasCall(e.content.modelTurn.value)
    ensures !r && flag ==> !e.ContentEvent? || (e.content.modelTurn.Some? && HasResponse(e.content.modelTurn.value))
  {
    match e
    case ContentEvent(c) =>
      if c.modelTurn.None? then flag
      else if HasCall(c.modelTurn.value) then true
      else if HasResponse(c.modelTurn.value) then false
      else flag
    case Interrupted => false
    case TurnComplete => false
  }

  /** A content message sets the flag when some part is a call, clears it
      when some part is a response and none is a call, and otherwise leaves
      it alone; `interrupted` and `turncomplete` always clear it. */
  lemma StepCases(flag: bool, e: Event)
    ensures e.ContentEvent? && e.content.modelTurn.Some? && HasCall(e.content.modelTurn.value)
      ==> Step(flag, e)
    ensures (e.ContentEvent? && e.content.modelTurn.Some? && !HasCall(e.content.modelTurn.value)
      && HasResponse(e.content.modelTurn.value)) ==> !Step(flag, e)
    ensures e.ContentEvent? && (e.content.modelTurn.None? ||
      (!HasCall(e.content.modelTurn.value) && !HasResponse(e.content.modelTurn.value)))
      ==> Step(flag, e) == flag
    ensures !e.ContentEvent? ==> !Step(flag, e)
  {
  }

  /** A message carrying both a call and a response leaves the flag set. */
  lemma CallAndResponseKeepsFlag(flag: bool, parts: seq<Part>, i: nat, j: nat)
    requires i < |parts| && j < |parts|
    requires Truthy(parts[i].functionCall) && Truthy(parts[j].functionResponse)
    ensures Step(flag, ContentEvent(Content(Some(parts))))
  {
  }

  /** Whether an event decides the flag whatever it was before. */
  predicate Decides(e: Event) {
    match e
    case ContentEvent(c) => c.modelTurn.Some? && (HasCall(c.modelTurn.value) || HasResponse(c.modelTurn.value))
    case _ => true
  }

  /** The flag after a sequence of events, one handler call after another. */
  function After(flag: bool, events: seq<Event>): bool {
    if events == [] then flag else Step(After(flag, events[..|events| - 1]), events[|events| - 1])
  }

  /** After any sequence of events, the flag is set exactly when the last
      deciding event was a message with a function call; with no deciding
      event it is what it was at the start. */
  lemma {:induction false} AfterLastDecides(flag: bool, events: seq<Event>, k: nat)
    requires k < |events| && Decides(events[k])
    requires forall j :: k < j < |events| ==> !Decides(events[j])
    ensures After(flag, events) <==>
      (events[k].ContentEvent? && HasCall(events[k].content.modelTurn.value))
    decreases |events|
  {
    var init := events[..|events| - 1];
    if k == |events| - 1 {
    } else {
      assert forall j :: k < j < |init| ==> init[j] == events[j];
      AfterLastDecides(flag, init, k);
    }
  }

  lemma {:induction false} AfterNoneDecides(flag: bool, events: seq<Event>)
    requires forall j :: 0 <= j < |events| ==> !Decides(events[j])
    ensures After(flag, events) == flag
  {
    if events != [] {
      var init := events[..|events| - 1];
      assert forall j :: 0 <= j < |init| ==> init[j] == events[j];
      AfterNoneDecides(flag, init);
    }
  }

  /** What `parts.map(part => part.text).join('')` makes of a part:
      `undefined` and `null` join as the empty string. */
  function PartText(p: Part): string {
    if p.text.JUndefined? || p.text.JNull? then "" else JsString(p.text)
  }

  function TurnText(parts: seq<Part>): string {
    if parts == [] then "" else TurnText(parts[..|parts| - 1]) + PartText(parts[|parts| - 1])
  }

  /** One chunk of `sendRealtimeInput`. `interrupt` is false when the key is
      absent. */
  datatype Chunk = Chunk(mimeType: string, data: string, interrupt: bool)

  const PcmMimeType: string := "audio/pcm;rate=16000"
  const JpegMimeType: string := "image/jpeg"

  /** The chunk the microphone callback sends for one frame. */
  function MicChunk(data: string, usingTool: bool): (c: Chunk)
    ensures c.mimeType == PcmMimeType && c.data == data
    ensures c.interrupt <==> usingTool
  {
    Chunk(PcmMimeType, data, usingTool)
  }

  /** The values read from the settings inputs when connecting. */
  datatype Settings = Settings(
    model: string, responseModalities: string, language: string, voice: string, instruction: string)

  /** The `config` object handed to `client.connect`. */
  function SetupConfig(s: Settings): (r: Json)
    ensures r.JObj? && r.fields.Keys == {"model", "generationConfig", "systemInstruction"}
    ensures "tools" !in r.fields
  {
    JObj(map[
      "model" := JStr(s.model),
      "generationConfig" := JObj(map[
        "responseModalities" := JStr(s.responseModalities),
        "speechConfig" := JObj(map[
          "languageCode" := JStr(s.language),
          "voiceConfig" := JObj(map[
            "prebuiltVoiceConfig" := JObj(map["voiceName" := JStr(s.voice)])])])]),
      "systemInstruction" := JObj(map[
        "parts" := JArr([JObj(map["text" := JStr(s.instruction)])])])])
  }

  /** `obj[k1][k2]...` along a path of object keys. */
  function At(j: Json, path: seq<string>): Option<Json>
    decreases |path|
  {
    if path == [] then Some(j)
    else if j.JObj? && path[0] in j.fields then At(j.fields[path[0]], path[1..])
    else None
  }

  /** Where the setup message carries the settings: the voice, the
      language and the instruction text at their nested places, and no
      `tools` entry. */
  lemma SetupConfigPlaces(s: Settings)
    ensures At(SetupConfig(s), ["model"]) == Some(JStr(s.model))
    ensures At(SetupConfig(s), ["generationConfig", "speechConfig", "voiceConfig",
      "prebuiltVoiceConfig", "voiceName"]) == Some(JStr(s.voice))
    ensures At(SetupConfig(s), ["generationConfig", "speechConfig", "languageCode"]) == Some(JStr(s.language))
    ensures At(SetupConfig(s), ["systemInstruction", "parts"]) == Some(JArr([JObj(map["text" := JStr(s.instruction)])]))
    ensures At(SetupConfig(s), ["tools"]) == None
  {
    var c := SetupConfig(s);
    var g := c.fields["generationConfig"];
    var sc := g.fields["speechConfig"];
    var vc := sc.fields["voiceConfig"];
    assert At(vc.fields["prebuiltVoiceConfig"], ["voiceName"]) == Some(JStr(s.voice));
    assert At(sc.fields["voiceConfig"], ["prebuiltVoiceConfig", "voiceName"]) == Some(JStr(s.voice));
    assert At(g.fields["speechConfig"], ["voiceConfig", "prebuiltVoiceConfig", "voiceName"]) == Some(JStr(s.voice));
    assert At(g.fields["speechConfig"], ["languageCode"]) == Some(JStr(s.language));
  }

  /** How a failed API-pool probe ended: aborted by the ten-second timer,
      answered with an error status, or some other exception. */
  datatype ProbeFailure =
    | Aborted
    | HttpError(status: int, body: string)
    | Threw(message: string)

  /** `error.name` and `error.message` of the caught exception. */
  function ErrorName(f: ProbeFailure): string {
    if f.Aborted? then "AbortError" else "Error"
  }

  function ErrorMessage(f: ProbeFailure): string {
    match f
    case Aborted => "This operation was aborted"
    case HttpError(status, body) => "API Pool connection failed: " + IntToString(status) + " - " + body
    case Threw(m) => m
  }

  const TimeoutText: string := "Connection timeout - API Pool may be unreachable from this network"
  const NetworkText: string := "Network error - API Pool may be on internal network or blocked by firewall"

  /** The text the catch block shows for a failed probe. */
  function ConnectErrorText(f: ProbeFailure): (r: string)
    ensures r == TimeoutText || r == NetworkText || r == ErrorMessage(f)
  {
    var message := ErrorMessage(f);
    if ErrorName(f) == "AbortError" then TimeoutText
    else if Contains(message, "fetch") || Contains(message, "Failed to fetch") then NetworkText
    else message
  }

  /** An abort is a timeout; otherwise a message mentioning `fetch` is a
      network error and any other message is shown as it is. The second
      `includes` test never changes the outcome. */
  lemma ConnectErrorCases(f: ProbeFailure)
    ensures f.Aborted? ==> ConnectErrorText(f) == TimeoutText
    ensures !f.Aborted? && Contains(ErrorMessage(f), "fetch") ==> ConnectErrorText(f) == NetworkText
    ensures !f.Aborted? && !Contains(ErrorMessage(f), "fetch") ==> ConnectErrorText(f) == ErrorMessage(f)
  {
    if !f.Aborted? && Contains(ErrorMessage(f), "Failed to fetch") {
      assert OccursAt("Failed to fetch", "fetch", 10);
      ContainsTransitive(ErrorMessage(f), "Failed to fetch", "fetch");
    }
  }

  /** Messages to the client and the HTTP API, in the order they are sent. */
  datatype Outbound =
    | Connect(config: Json, apiKey: string)
    | RealtimeInput(chunks: seq<Chunk>)
    | Text(text: string)
    | PoolMessage(text: string)
    | Disconnect

  /** Devices the handlers stop. */
  datatype DeviceStop = StopPlayback | StopRecorder | StopCamera | StopScreen

  /** How starting the microphone ends: started, or an exception after the
      audio streamer, and possibly the recorder, were created. */
  datatype MicStart = MicStarted | MicFailed(streamerCreated: bool, recorderCreated: bool)

  const ApiPoolMode: string := "api-pool"

  /** The devices `disconnectFromWebsocket` stops, in order: playback and
      the recorder when a streamer exists, then the camera and the screen
      recorder when they exist. */
  function DisconnectStops(streamer: bool, recorder: bool, video: bool, screen: bool): seq<DeviceStop> {
    (if streamer then [StopPlayback] else [])
    + (if streamer && recorder then [StopRecorder] else [])
    + (if video then [StopCamera] else [])
    + (if screen then [StopScreen] else [])
  }

  lemma DisconnectStopsSplit(s0: seq<DeviceStop>, s1: seq<DeviceStop>, s2: seq<DeviceStop>, s3: seq<DeviceStop>,
                             streamer: bool, recorder: bool, video: bool, screen: bool)
    requires s1 == s0 + (if streamer then [StopPlayback] else []) + (if streamer && recorder then [StopRecorder] else [])
    requires s2 == s1 + (if video then [StopCamera] else [])
    requires s3 == s2 + (if screen then [StopScreen] else [])
    ensures s3 == s0 + DisconnectStops(streamer, recorder, video, screen)
  {
  }

  /** The page's module-level state. `hasAudioStreamer`, `hasRecorder`,
      `hasVideoManager` and `hasScreenRecorder` say whether the
      corresponding object variable is set. */
  class Session {
    var isUsingTool: bool
    var isConnected: bool
    var isRecording: bool
    var hasAudioStreamer: bool
    var hasRecorder: bool
    var isVideoActive: bool
    var hasVideoManager: bool
    var isScreenSharing: bool
    var hasScreenRecorder: bool
    var outbound: seq<Outbound>
    var stopped: seq<DeviceStop>

    /** Recording means a streamer and a recorder exist, an active camera
        has its manager and a screen share its recorder. */
    ghost predicate Valid()
      reads this
    {
      && (isRecording ==> hasAudioStreamer && hasRecorder)
      && (isVideoActive ==> hasVideoManager)
      && (isScreenSharing ==> hasScreenRecorder)
    }

    /** The state the script starts in. */
    constructor ()
      ensures Valid()
      ensures !isUsingTool && !isConnected && !isRecording && !hasAudioStreamer && !hasRecorder
      ensures !isVideoActive && !hasVideoManager && !isScreenSharing && !hasScreenRecorder
      ensures outbound == [] && stopped == []
    {
      isUsingTool, isConnected, isRecording := false, false, false;
      hasAudioStreamer, hasRecorder := false, false;
      isVideoActive, hasVideoManager, isScreenSharing, hasScreenRecorder := false, false, false, false;
      outbound, stopped := [], [];
    }

    /** The `content` handler; returns the text it logs, if any. */
    method OnContent(c: Content) returns (shown: Option<string>)
      requires Valid()
      modifies this`isUsingTool
      ensures Valid()
      ensures isUsingTool == Step(old(isUsingTool), ContentEvent(c))
      ensures shown == if c.modelTurn.Some? && TurnText(c.modelTurn.value) != ""
        then Some(TurnText(c.modelTurn.value)) else None
    {
      shown := None;
      if c.modelTurn.Some? {
        var parts := c.modelTurn.value;
        if HasCall(parts) {
          isUsingTool := true;
        } else if HasResponse(parts) {
          isUsingTool := false;
        }
        var text := TurnText(parts);
        if text != "" {
          shown := Some(text);
        }
      }
    }

    /** The `interrupted` handler: playback stops if there is a streamer. */
    method OnInterrupted()
      requires Valid()
      modifies this`isUsingTool, this`stopped
      ensures Valid()
      ensures isUsingTool == Step(old(isUsingTool), Interrupted)
      ensures stopped == old(stopped) + if hasAudioStreamer then [StopPlayback] else []
    {
      if hasAudioStreamer {
        stopped := stopped + [StopPlayback];
      }
      isUsingTool := false;
    }

    /** The `turncomplete` handler. */
    method OnTurnComplete()
      requires Valid()
      modifies this`isUsingTool
      ensures Valid()
      ensures isUsingTool == Step(old(isUsingTool), TurnComplete)
    {
      isUsingTool := false;
    }

    /** The recorder callback: each frame goes out as one PCM chunk, marked
        as an interruption while a tool is in use. It does not look at the
        connection. */
    method OnMicFrame(data: string)
      requires Valid()
      modifies this`outbound
      ensures Valid()
      ensures outbound == old(outbound) + [RealtimeInput([MicChunk(data, isUsingTool)])]
    {
      var chunk := if isUsingTool then Chunk(PcmMimeType, data, true) else Chunk(PcmMimeType, data, false);
      outbound := outbound + [RealtimeInput([chunk])];
    }

    /** The camera callback: a frame is forwarded only while connected. */
    method OnCameraFrame(frame: Chunk)
      requires Valid()
      modifies this`outbound
      ensures Valid()
      ensures outbound == old(outbound) + if isConnected then [RealtimeInput([frame])] else []
    {
      if isConnected {
        outbound := outbound + [RealtimeInput([frame])];
      }
    }

    /** The screen-recorder callback: a JPEG frame, only while connected. */
    method OnScreenFrame(data: string)
      requires Valid()
      modifies this`outbound
      ensures Valid()
      ensures outbound == old(outbound) + if isConnected then [RealtimeInput([Chunk(JpegMimeType, data, false)])] else []
    {
      if isConnected {
        outbound := outbound + [RealtimeInput([Chunk(JpegMimeType, data, false)])];
      }
    }

    /** `connectToWebSocketMode`. `connects` is whether `client.connect`
        resolves and `resumes` whether resuming the audio context does. An
        empty key stops before anything is sent; otherwise the connection
        is up exactly when both succeed. */
    method ConnectToWebSocketMode(apiKey: string, settings: Settings, connects: bool, resumes: bool)
      requires Valid()
      modifies this`isConnected, this`outbound
      ensures Valid()
      ensures apiKey == "" ==> isConnected == old(isConnected) && outbound == old(outbound)
      ensures apiKey != "" ==> outbound == old(outbound) + [Connect(SetupConfig(settings), apiKey)]
      ensures apiKey != "" ==> (isConnected <==> connects && resumes)
    {
      if apiKey == "" {
        return;
      }
      var config := SetupConfig(settings);
      outbound := outbound + [Connect(config, apiKey)];
      if connects {
        isConnected := true;
        if !resumes {
          isConnected := false;
        }
      } else {
        isConnected := false;
      }
    }

    /** `connectToApiPool`: the probe either succeeds or fails with
        `failure`; returns the error text it shows. */
    method ConnectToApiPool(failure: Option<ProbeFailure>) returns (shown: Option<string>)
      requires Valid()
      modifies this`isConnected
      ensures Valid()
      ensures isConnected <==> failure.None?
      ensures shown == if failure.None? then None else Some(ConnectErrorText(failure.value))
    {
      if failure.None? {
        isConnected := true;
        shown := None;
      } else {
        var f := failure.value;
        var errorMessage := "Unknown error";
        if ErrorName(f) == "AbortError" {
          errorMessage := TimeoutText;
        } else if Contains(ErrorMessage(f), "fetch") || Contains(ErrorMessage(f), "Failed to fetch") {
          errorMessage := NetworkText;
        } else {
          errorMessage := ErrorMessage(f);
        }
        isConnected := false;
        shown := Some(errorMessage);
      }
    }

    /** `connectToWebsocket`: the mode chooses the API pool or the socket. */
    method ConnectByMode(mode: string, apiKey: string, settings: Settings, connects: bool, resumes: bool,
                         failure: Option<ProbeFailure>)
      requires Valid()
      modifies this`isConnected, this`outbound
      ensures Valid()
      ensures mode == ApiPoolMode ==> outbound == old(outbound) && (isConnected <==> failure.None?)
      ensures mode != ApiPoolMode && apiKey == "" ==> isConnected == old(isConnected) && outbound == old(outbound)
      ensures mode != ApiPoolMode && apiKey != "" ==>
        outbound == old(outbound) + [Connect(SetupConfig(settings), apiKey)] && (isConnected <==> connects && resumes)
    {
      if mode == ApiPoolMode {
        var shown := ConnectToApiPool(failure);
      } else {
        ConnectToWebSocketMode(apiKey, settings, connects, resumes);
      }
    }

    /** `stopVideo`. */
    method StopVideo()
      requires Valid()
      modifies this`isVideoActive, this`hasVideoManager, this`stopped
      ensures Valid()
      ensures !isVideoActive && !hasVideoManager
      ensures stopped == old(stopped) + if old(hasVideoManager) then [StopCamera] else []
    {
      if hasVideoManager {
        stopped := stopped + [StopCamera];
        hasVideoManager := false;
      }
      isVideoActive := false;
    }

    /** `stopScreenSharing`. */
    method StopScreenSharing()
      requires Valid()
      modifies this`isScreenSharing, this`hasScreenRecorder, this`stopped
      ensures Valid()
      ensures !isScreenSharing && !hasScreenRecorder
      ensures stopped == old(stopped) + if old(hasScreenRecorder) then [StopScreen] else []
    {
      if hasScreenRecorder {
        stopped := stopped + [StopScreen];
        hasScreenRecorder := false;
      }
      isScreenSharing := false;
    }

    /** `disconnectFromWebsocket`: afterwards nothing is connected,
        recording, filming or sharing; `isUsingTool` is left as it was. */
    method DisconnectFromWebsocket()
      requires Valid()
      modifies this
      ensures Valid()
      ensures !isConnected && !isRecording && !isVideoActive && !isScreenSharing
      ensures isUsingTool == old(isUsingTool)
      ensures outbound == old(outbound) + [Disconnect]
      ensures hasAudioStreamer == old(hasAudioStreamer)
      ensures hasRecorder == (old(hasRecorder) && !old(hasAudioStreamer))
      ensures !hasVideoManager && !hasScreenRecorder
      ensures stopped == old(stopped) + DisconnectStops(old(hasAudioStreamer), old(hasRecorder),
                                                      old(hasVideoManager), old(hasScreenRecorder))
    {
      ghost var stops := DisconnectStops(hasAudioStreamer, hasRecorder, hasVideoManager, hasScreenRecorder);
      ghost var before := stopped;
      outbound := outbound + [Disconnect];
      isConnected := false;
      if hasAudioStreamer {
        stopped := stopped + [StopPlayback];
        if hasRecorder {
          stopped := stopped + [StopRecorder];
          hasRecorder := false;
        }
        isRecording := false;
      }
      ghost var audio := stopped;
      if hasVideoManager {
        StopVideo();
      }
      ghost var camera := stopped;
      if hasScreenRecorder {
        StopScreenSharing();
      }
      DisconnectStopsSplit(before, audio, camera, stopped, old(hasAudioStreamer), old(hasRecorder),
                           old(hasVideoManager), old(hasScreenRecorder));
    }

    /** The connect button: disconnect when connected, connect otherwise. */
    method OnConnectButton(mode: string, apiKey: string, settings: Settings, connects: bool, resumes: bool,
                           failure: Option<ProbeFailure>)
      requires Valid()
      modifies this
      ensures Valid()
      ensures old(isConnected) ==> !isConnected && outbound == old(outbound) + [Disconnect]
      ensures !old(isConnected) && mode == ApiPoolMode ==> (isConnected <==> failure.None?)
      ensures isUsingTool == old(isUsingTool)
    {
      if isConnected {
        DisconnectFromWebsocket();
      } else {
        ConnectByMode(mode, apiKey, settings, connects, resumes, failure);
      }
    }

    /** `handleSendMessage`: the trimmed input goes to the API pool or the
        socket by mode; an input that trims to nothing sends nothing. */
    method HandleSendMessage(input: string, mode: string)
      requires Valid()
      modifies this`outbound
      ensures Valid()
      ensures Trim(input) == "" ==> outbound == old(outbound)
      ensures Trim(input) != "" ==>
        outbound == old(outbound) + [if mode == ApiPoolMode then PoolMessage(Trim(input)) else Text(Trim(input))]
    {
      var message := Trim(input);
      if message == "" {
        return;
      }
      if mode == ApiPoolMode {
        outbound := outbound + [PoolMessage(message)];
      } else {
        outbound := outbound + [Text(message)];
      }
    }

    /** `handleMicToggle`. Starting sets `isRecording` only when every step
        succeeds; stopping stops the recorder if it was recording. */
    method HandleMicToggle(start: MicStart)
      requires Valid()
      modifies this`isRecording, this`hasAudioStreamer, this`hasRecorder, this`stopped
      ensures Valid()
      ensures !old(isRecording) ==> (isRecording <==> start.MicStarted?)
      ensures !old(isRecording) ==> stopped == old(stopped)
      ensures old(isRecording) ==> !isRecording && stopped == old(stopped) + [StopRecorder]
      ensures old(isRecording) ==> hasAudioStreamer == old(hasAudioStreamer) && hasRecorder == old(hasRecorder)
      ensures !old(isRecording) && start.MicStarted? ==> hasAudioStreamer && hasRecorder
      ensures !old(isRecording) && start.MicFailed? ==>
        hasAudioStreamer == (old(hasAudioStreamer) || start.streamerCreated || start.recorderCreated)
        && hasRecorder == (old(hasRecorder) || start.recorderCreated)
    {
      if !isRecording {
        match start
        case MicStarted =>
          hasAudioStreamer := true;
          hasRecorder := true;
          isRecording := true;
        case MicFailed(streamerCreated, recorderCreated) =>
          hasAudioStreamer := hasAudioStreamer || streamerCreated || recorderCreated;
          hasRecorder := hasRecorder || recorderCreated;
          isRecording := false;
      } else {
        if hasRecorder && isRecording {
          stopped := stopped + [StopRecorder];
        }
        isRecording := false;
      }
    }

    /** `handleVideoToggle`: starting succeeds or leaves no manager. */
    method HandleVideoToggle(starts: bool)
      requires Valid()
      modifies this`isVideoActive, this`hasVideoManager, this`stopped
      ensures Valid()
      ensures !old(isVideoActive) ==> (isVideoActive <==> starts) && (hasVideoManager <==> starts)
      ensures old(isVideoActive) ==> !isVideoActive && !hasVideoManager
      ensures !old(isVideoActive) ==> stopped == old(stopped)
      ensures old(isVideoActive) ==> stopped == old(stopped) + if old(hasVideoManager) then [StopCamera] else []
    {
      if !isVideoActive {
        if starts {
          hasVideoManager := true;
          isVideoActive := true;
        } else {
          isVideoActive := false;
          hasVideoManager := false;
        }
      } else {
        StopVideo();
      }
    }

    /** `handleScreenShare`: a recorder is created before the start is
        awaited and kept when it fails. */
    method HandleScreenShare(starts: bool)
      requires Valid()
      modifies this`isScreenSharing, this`hasScreenRecorder, this`stopped
      ensures Valid()
      ensures !old(isScreenSharing) ==> (isScreenSharing <==> starts) && hasScreenRecorder
      ensures old(isScreenSharing) ==> !isScreenSharing && !hasScreenRecorder
      ensures !old(isScreenSharing) ==> stopped == old(stopped)
      ensures old(isScreenSharing) ==> stopped == old(stopped) + if old(hasScreenRecorder) then [StopScreen] else []
    {
      if !isScreenSharing {
        hasScreenRecorder := true;
        isScreenSharing := starts;
      } else {
        StopScreenSharing();
      }
    }

    /** The `audio` event: `ensureAudioInitialized` creates the streamer
        when there is none; `streamerCreated` says whether that happened,
        which it does not when resuming the audio context throws first. */
    method OnAudio(streamerCreated: bool)
      requires Valid()
      modifies this`hasAudioStreamer
      ensures Valid()
      ensures hasAudioStreamer == (old(hasAudioStreamer) || streamerCreated)
    {
      if !hasAudioStreamer && streamerCreated {
        hasAudioStreamer := true;
      }
    }
  }
}

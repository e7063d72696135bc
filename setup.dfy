/**
 * The client configuration and the setup (handshake) message built from it.
 * Both client versions build the same message: `sendSetupMessage` in the
 * gated client and `WebSocketConfig.createSetupMessage` in the flag client.
 */
module Setup {
  import opened Options
  import opened Json
  import opened Strings

  /** A Kotlin `Int`. */
  type Int32 = x: int | -0x8000_0000 <= x < 0x8000_0000

  datatype WebSocketConfig = WebSocketConfig(
    host: string,
    modelName: string,
    vadSilenceMs: Int32,
    apiVersion: string,
    apiKey: string,
    sessionHandle: Option<string>,
    systemInstruction: string)

  /** One instruction part: `{"text": trimmed piece}`. */
  function InstructionPart(piece: string): Json {
    JObject([("text", JString(Trim(piece)))])
  }

  function InstructionParts(pieces: seq<string>): (parts: seq<Json>)
    ensures |parts| == |pieces|
    ensures forall k :: 0 <= k < |pieces| ==> parts[k] == InstructionPart(pieces[k])
  {
    if pieces == [] then [] else [InstructionPart(pieces[0])] + InstructionParts(pieces[1..])
  }

  /** `createSystemInstruction`: `{"parts": [{"text": ...}, ...]}`, one part per paragraph. */
  function SystemInstruction(instruction: string): (si: Json)
    ensures si.JObject? && Keys(si.members) == ["parts"]
    ensures PartCount(si) == |SplitParagraphs(instruction)|
  {
    JObject([("parts", JArray(InstructionParts(SplitParagraphs(instruction))))])
  }

  /** The text of part `k` of a system instruction, when there is one. */
  function PartText(si: Json, k: nat): Option<string> {
    match Field(si, "parts")
    case Some(JArray(items)) =>
      if k < |items| then
        match Field(items[k], "text")
        case Some(JString(t)) => Some(t)
        case _ => None
      else None
    case _ => None
  }

  function PartCount(si: Json): nat {
    match Field(si, "parts")
    case Some(JArray(items)) => |items|
    case _ => 0
  }

  /** Mirrors the infix rule: a slice of a text without blank lines has none. */
  lemma NoBlankLineInfix(s: string, a: nat, b: nat)
    requires a <= b <= |s| && NoBlankLine(s)
    ensures NoBlankLine(s[a..b])
  {
    forall i ensures !BlankAt(s[a..b], i) {
      assert !BlankAt(s, a + i);
    }
  }

  /**
   * The parts of the system instruction: there is at least one, part `k`
   * is the `k`-th paragraph of the instruction trimmed, and no part
   * contains a blank line (`SplitParagraphsSound` says how the paragraphs
   * make up the instruction; `Trim` that a part neither begins nor ends
   * with whitespace).
   */
  lemma SystemInstructionParts(instruction: string)
    ensures PartCount(SystemInstruction(instruction)) == |SplitParagraphs(instruction)| >= 1
    ensures forall k :: 0 <= k < |SplitParagraphs(instruction)| ==>
              PartText(SystemInstruction(instruction), k) == Some(Trim(SplitParagraphs(instruction)[k]))
    ensures forall k :: 0 <= k < |SplitParagraphs(instruction)| ==>
              NoBlankLine(Trim(SplitParagraphs(instruction)[k]))
  {
    var pieces := SplitParagraphs(instruction);
    var items := InstructionParts(pieces);
    assert Field(SystemInstruction(instruction), "parts") == Some(JArray(items));
    forall k | 0 <= k < |pieces|
      ensures PartText(SystemInstruction(instruction), k) == Some(Trim(pieces[k]))
    {
      assert Field(items[k], "text") == Some(JString(Trim(pieces[k])));
    }
    TrimmedParagraphsHaveNoBlankLine(instruction);
  }

  /** No trimmed paragraph of a text contains a blank line. */
  lemma TrimmedParagraphsHaveNoBlankLine(instruction: string)
    ensures forall k :: 0 <= k < |SplitParagraphs(instruction)| ==>
              NoBlankLine(Trim(SplitParagraphs(instruction)[k]))
  {
    var pieces := SplitParagraphs(instruction);
    SplitFromNoBlank(instruction, 0);
    forall k | 0 <= k < |pieces| ensures NoBlankLine(Trim(pieces[k])) {
      var p := pieces[k];
      NoBlankLineInfix(p, LeadingWhitespace(p), LeadingWhitespace(p) + |Trim(p)|);
    }
  }

  /** The keys every setup message has, in the order they are put. */
  const FixedSetupKeys: seq<string> := [
    "model", "generationConfig", "systemInstruction", "inputAudioTranscription",
    "outputAudioTranscription", "contextWindowCompression", "realtimeInputConfig"]

  /** The members of the `setup` object, in insertion order. */
  function SetupFields(c: WebSocketConfig): (members: seq<(string, Json)>)
    ensures Keys(members) == FixedSetupKeys + (if c.sessionHandle.Some? then ["sessionResumption"] else [])
  {
    [ ("model", JString("models/" + c.modelName)),
      ("generationConfig", JObject([("responseModalities", JArray([JString("AUDIO")]))])),
      ("systemInstruction", SystemInstruction(c.systemInstruction)),
      ("inputAudioTranscription", JObject([])),
      ("outputAudioTranscription", JObject([])),
      ("contextWindowCompression", JObject([("slidingWindow", JObject([]))])),
      ("realtimeInputConfig", JObject([("automaticActivityDetection",
          JObject([("silenceDurationMs", JNumber(c.vadSilenceMs))]))]))
    ] + match c.sessionHandle
        case Some(handle) => [("sessionResumption", JObject([("handle", JString(handle))]))]
        case None => []
  }

  /**
   * `createSetupMessage`: `{"setup": {...}}`, the one top-level key holding
   * the object whose keys are the fixed ones, then `sessionResumption`
   * when there is a handle.
   */
  function SetupMessage(c: WebSocketConfig): (msg: Json)
    ensures msg.JObject? && Keys(msg.members) == ["setup"]
    ensures match Field(msg, "setup")
            case Some(JObject(m)) => Keys(m) == FixedSetupKeys + (if c.sessionHandle.Some? then ["sessionResumption"] else [])
            case _ => false
  {
    JObject([("setup", JObject(SetupFields(c)))])
  }

  /** No key of the setup object is put twice. */
  lemma SetupFieldsDistinct(c: WebSocketConfig)
    ensures DistinctKeys(SetupFields(c))
  {
    var fields := SetupFields(c);
    var keys := Keys(fields);
    // the keys already differ in their first two characters
    forall i, j | 0 <= i < j < |fields| ensures fields[i].0 != fields[j].0 {
      assert fields[i].0 == keys[i] && fields[j].0 == keys[j];
      assert keys[i][0] != keys[j][0] || keys[i][1] != keys[j][1];
    }
  }

  /** Member `key` of the setup object, found at index `i`. */
  lemma SetupField(c: WebSocketConfig, i: nat, key: string)
    requires i < |SetupFields(c)| && SetupFields(c)[i].0 == key
    ensures At(SetupMessage(c), ["setup", key]) == Some(SetupFields(c)[i].1)
  {
    SetupFieldsDistinct(c);
    LookupDistinct(SetupFields(c), i);
    var msg, setup, path := SetupMessage(c), JObject(SetupFields(c)), ["setup", key];
    assert Field(msg, "setup") == Some(setup);
    assert Field(setup, key) == Some(SetupFields(c)[i].1);
    assert path[0] == "setup" && path[1..] == [key] && [key][0] == key && [key][1..] == [];
    assert At(setup, [key]) == At(SetupFields(c)[i].1, []);
  }

  /** Member `sub` of the single-member object held under `key` at index `i`. */
  lemma SetupSubField(c: WebSocketConfig, i: nat, key: string, sub: string, v: Json)
    requires i < |SetupFields(c)| && SetupFields(c)[i] == (key, JObject([(sub, v)]))
    ensures At(SetupMessage(c), ["setup", key, sub]) == Some(v)
  {
    SetupField(c, i, key);
    AtConcat(SetupMessage(c), ["setup", key], [sub]);
    assert ["setup", key] + [sub] == ["setup", key, sub];
    assert [sub][1..] == [];
  }

  /** The model is `"models/" + modelName` and the only response modality is audio. */
  lemma SetupModel(c: WebSocketConfig)
    ensures At(SetupMessage(c), ["setup", "model"]) == Some(JString("models/" + c.modelName))
    ensures At(SetupMessage(c), ["setup", "generationConfig", "responseModalities"])
              == Some(JArray([JString("AUDIO")]))
  {
    SetupField(c, 0, "model");
    SetupSubField(c, 1, "generationConfig", "responseModalities", JArray([JString("AUDIO")]));
  }

  /** Both transcriptions are requested and the context window slides. */
  lemma SetupTranscription(c: WebSocketConfig)
    ensures At(SetupMessage(c), ["setup", "inputAudioTranscription"]) == Some(JObject([]))
    ensures At(SetupMessage(c), ["setup", "outputAudioTranscription"]) == Some(JObject([]))
    ensures At(SetupMessage(c), ["setup", "contextWindowCompression", "slidingWindow"]) == Some(JObject([]))
  {
    SetupField(c, 3, "inputAudioTranscription");
    SetupField(c, 4, "outputAudioTranscription");
    SetupSubField(c, 5, "contextWindowCompression", "slidingWindow", JObject([]));
  }

  /** The system instruction is the one built from the configured text. */
  lemma SetupInstruction(c: WebSocketConfig)
    ensures At(SetupMessage(c), ["setup", "systemInstruction"]) == Some(SystemInstruction(c.systemInstruction))
  {
    SetupField(c, 2, "systemInstruction");
  }

  /** The silence that ends a turn is `vadSilenceMs`. */
  lemma SetupSilence(c: WebSocketConfig)
    ensures At(SetupMessage(c), ["setup", "realtimeInputConfig", "automaticActivityDetection", "silenceDurationMs"])
              == Some(JNumber(c.vadSilenceMs))
  {
    SetupField(c, 6, "realtimeInputConfig");
    var tail := ["automaticActivityDetection", "silenceDurationMs"];
    AtConcat(SetupMessage(c), ["setup", "realtimeInputConfig"], tail);
    assert ["setup", "realtimeInputConfig"] + tail
        == ["setup", "realtimeInputConfig", "automaticActivityDetection", "silenceDurationMs"];
    var inner := JObject([("silenceDurationMs", JNumber(c.vadSilenceMs))]);
    assert Field(JObject([("automaticActivityDetection", inner)]), tail[0]) == Some(inner);
    assert tail[1..] == ["silenceDurationMs"] && ["silenceDurationMs"][1..] == [];
  }

  /**
   * `sessionResumption` is present exactly when the configuration has a
   * session handle, and then carries that handle.
   */
  lemma SetupResumption(c: WebSocketConfig)
    ensures At(SetupMessage(c), ["setup", "sessionResumption"]).Some? <==> c.sessionHandle.Some?
    ensures c.sessionHandle.Some? ==>
              At(SetupMessage(c), ["setup", "sessionResumption", "handle"]) == Some(JString(c.sessionHandle.value))
  {
    var fields := SetupFields(c);
    var setup := JObject(fields);
    assert Field(SetupMessage(c), "setup") == Some(setup);
    if c.sessionHandle.Some? {
      SetupField(c, 7, "sessionResumption");
      SetupSubField(c, 7, "sessionResumption", "handle", JString(c.sessionHandle.value));
    } else {
      assert "sessionResumption" !in Keys(fields);
      assert Field(setup, "sessionResumption") == None;
    }
  }

  /** The text whose presence in a server message acknowledges the setup. */
  const SetupCompleteMarker: string := "\"setupComplete\""

  /** The acknowledgement the server sends once the setup is accepted. */
  const SetupAck: string := "{\"setupComplete\":{}}"

  /** The acknowledgement carries the marker the client looks for. */
  lemma SetupAckHasMarker()
    ensures Contains(SetupAck, SetupCompleteMarker)
  {
    assert SetupAck[1..1 + |SetupCompleteMarker|] == SetupCompleteMarker;
    assert OccursAt(SetupAck, SetupCompleteMarker, 1);
  }
}
